# Application for video tracking: a Dafny model of its core

The application lets a user mark objects in a video and have a particle
filter follow them. It stores each object's trajectory and writes an
output video with the objects filled, outlined or defocused. This project
models the parts of the program that decide *what* is tracked and stored:

- **The trajectory store of `TrackedObject`** (`TrajectoryStore`,
  `TrackedObjects`, `TrajectoryProperties`, `SectionEditProperties`,
  `Persistence`).
  - The store holds two ordered maps keyed by frame timestamp: the
    reference sections the user set, and the cache of computed boxes.
  - It also holds the cursor (current and next section) and the
    `allProcessed` flag.
  - Every edit and `track_next` is a function on an `ObjectState` value.
    The class `TrackedObjects.TrackedObject` mutates its fields in place
    and is proved to have exactly those effects.
  - Lemmas state what each edit keeps, rejects and evicts, and what
    serialisation keeps.
- **The defocus tiling of `draw_mark`** (`Defocus`). This covers the tile
  geometry only, as written with unsigned wrap-around and as intended with
  clamping.
- **The frame index and seeking of `FFmpegPlayer`** (`FrameIndex`).
  - The decoder is a stream of presentation timestamps.
  - The container seek is an oracle that says where decoding resumes.
- **The tracking orchestration of `VideoTracker`** (`VideoTracking`). It
  decides per object whether to skip, replay the cache, take the
  next-frame fast path or catch up from the frontier. Cancellation is an
  input.
- **Time conversion and the time label** (`TimeConversion`, `TimeLabels`).
  - Milliseconds are split into h/m/s/ms.
  - The `QString::arg` template formatting is modelled marker by marker.
- **The standalone tracker program's argument parser and motion memory**
  (`TrackArgs`, `DynamicParams`).
- **The main window's name and file bookkeeping** (`PathNames`,
  `MainWindowLogic`), **the output writer's file naming**
  (`AVWriterNaming`) and **the selection drag of the video label**
  (`ImageLabels`).

`std::map`/`std::set` operations (`upper_bound`, `lower_bound`,
`erase(find(k), end())`, `--find(k)`) are defined once in `OrderedMaps` on
integer keys.

## Model

| member | source | states |
|---|---|---|
| OrderedMaps.Least | application_source/headers/trackedobject.h:331-332 | the first key of a non-empty ordered map: a member no greater than any other |
| OrderedMaps.Greatest | application_source/sources/trackedobject.cpp:578-589 | the last key (`--end()`): a member no smaller than any other |
| OrderedMaps.UpperBound | application_source/sources/trackedobject.cpp:131-138 | `upper_bound(k)`: None exactly when no key exceeds k, otherwise the least key above k |
| OrderedMaps.LowerBound | application_source/sources/ffmpegplayer.cpp:301-308 | `lower_bound(k)`: None exactly when every key is below k, otherwise the least key at or above k |
| OrderedMaps.UpperBoundInserted | application_source/sources/trackedobject.cpp:124-139 | after inserting x, `upper_bound(k)` is x exactly when x is the first key above k |
| OrderedMaps.UpperBoundTruncate | application_source/sources/trackedobject.cpp:324-328 | cutting keys above t keeps `upper_bound(k)` when it is at most t and makes it None otherwise |
| OrderedMaps.Predecessor | application_source/sources/trackedobject.cpp:201-203 | `--find(k)` for a key that has a smaller one: the greatest key below k |
| OrderedMaps.StepBack | application_source/sources/trackedobject.cpp:258-259 | `*(--find(k))`: the predecessor when k is a key, the last key when it is not |
| OrderedMaps.Floor | application_source/sources/trackedobject.cpp:640 | `--upper_bound(k)`: the greatest key at or below k |
| OrderedMaps.EraseFromFound | application_source/sources/trackedobject.cpp:120 | `erase(find(k), end())`: the keys below k when k is present, nothing erased when it is absent |
| OrderedMaps.EraseAfter | application_source/sources/trackedobject.cpp:314 | erasing from `upper_bound(k)` keeps exactly the keys at most k |
| OrderedMaps.EraseBeforeFound | application_source/sources/trackedobject.cpp:178 | `erase(begin(), find(k))`: the keys from k on, or nothing at all when k is absent |
| OrderedMaps.EraseFromFoundIsPrefix | application_source/sources/trackedobject.cpp:120 | the erasure keeps a sub-map, exactly the keys below k when k is present |
| OrderedMaps.EraseFromFoundIdempotent | application_source/sources/trackedobject.cpp:120 | erasing from the same key twice is erasing once |
| TrajectoryStore.Initial | application_source/sources/trackedobject.cpp:22-42 | the constructed object satisfies the store invariant: one Beginning section, no cache, no cursor |
| TrajectoryStore.LastProcessed | application_source/sources/trackedobject.cpp:578-589 | None exactly when the cache is empty; otherwise a cached key no smaller than any other |
| TrajectoryStore.GetPosition | application_source/sources/trackedobject.cpp:433-443 | found exactly when the timestamp is cached, with the cached box |
| TrajectoryStore.Released | application_source/sources/trackedobject.cpp:101-110 | deleting the current tracker keeps the set of sections |
| TrajectoryStore.Detach | application_source/sources/trackedobject.cpp:152-208 | the old section is gone after the first half of `change_trajectory_section` |
| TrajectoryStore.EnteredKey | application_source/sources/trackedobject.cpp:358-396 | the section `track_next` enters is one of the sections |
| TrajectoryProperties.SetAllProcessedKeepsValid | application_source/sources/trackedobject.cpp:591-607 | setting the flag drops every tracker and the cursor; either way the cache and the section keys stay and the invariant holds |
| TrajectoryProperties.TrackNextRecordsOneEntry | application_source/sources/trackedobject.cpp:356-431 | `track_next` adds or overwrites exactly the entry at the frame's timestamp with the returned box and keeps every other entry and section key |
| TrajectoryProperties.TrackNextKeepsValid | application_source/sources/trackedobject.cpp:356-431 | `track_next` keeps the invariant and never places a section after the end |
| TrajectoryProperties.SeatKeepsValid | application_source/sources/trackedobject.cpp:385-405 | moving the tracker to the entered section and pointing the next section at its `upper_bound` keeps the invariant |
| TrajectoryProperties.SeatedCursor | application_source/sources/trackedobject.cpp:385-396 | seating the tracker keeps the section keys and the end, points the cursor at the entered section, and leaves exactly that section with a tracker |
| TrajectoryProperties.TrackNextBranches | application_source/sources/trackedobject.cpp:358-428 | entering a section records the tracker's initial box and moves the cursor there; otherwise the step box is recorded and `allProcessed` is set, with the cursor dropped, exactly when the end timestamp is reached |
| TrajectoryProperties.EnteredKeyAfterFrontier | application_source/sources/trackedobject.cpp:372-383 | with no cursor and a non-empty cache the entered section is the first one after the frontier |
| TrajectoryProperties.EraseToComplyCutsAtSection | application_source/sources/trackedobject.cpp:631-644 | nothing changes when all or nothing is processed; otherwise the cache is cut at the start of the frontier's section when that is cached and left alone when it is not |
| TrajectoryProperties.ComplyThenResume | application_source/headers/trackedobject.h:314-319 | after trimming a loaded cache `track_next` has a section to enter, at or before the frontier's section |
| SectionEditProperties.LeastIsInitial | application_source/headers/trackedobject.h:331 | the Beginning section is the first section |
| SectionEditProperties.ResetFacts | application_source/sources/trackedobject.cpp:152-164 | the reset step clears cursor and `allProcessed`, removes trackers, and evicts at most one cache tail |
| SectionEditProperties.DetachBeginning | application_source/sources/trackedobject.cpp:166-182 | changing the Beginning empties the cache, moves the Beginning, and keeps only sections from the new timestamp on (none when no section starts there) |
| SectionEditProperties.DetachMiddle | application_source/sources/trackedobject.cpp:183-206 | changing another section removes only it, moves the Beginning only when it moves before it, and cuts the cache at the new timestamp when cached |
| SectionEditProperties.DetachCutsAtPredecessor | application_source/sources/trackedobject.cpp:190-204 | a section moved later also cuts the cache at the previous section's start |
| SectionEditProperties.ChangeInPlace | application_source/sources/trackedobject.cpp:208-217 | a section changed at its own timestamp keeps the set of sections, gets its new box, and empties (Beginning) or cuts (otherwise) the cache |
| SectionEditProperties.ChangeSectionRejectsAfterEnd | application_source/sources/trackedobject.cpp:149-150 | a section moved past a set end is refused and nothing changes |
| SectionEditProperties.ChangeSectionEffects | application_source/sources/trackedobject.cpp:144-221 | any other change succeeds, keeps the invariant, puts the new box at the new timestamp, keeps the surviving sections, leaves no cursor, and leaves exactly the cache `ChangedCache` describes: none when the Beginning is changed or a section lands on it, otherwise the old entries below every cached cut key, unchanged |
| SectionEditProperties.ChangeSectionBeginning | application_source/sources/trackedobject.cpp:168-217 | changing the Beginning leaves an empty cache, the Beginning at the new timestamp, and only the sections from it on |
| SectionEditProperties.ChangeSectionMiddle | application_source/sources/trackedobject.cpp:152-219 | changing another section moves only it, and the cache keeps exactly its entries below the cached cut keys: the current section's start, the new timestamp and, when moved later, the previous section's start |
| SectionEditProperties.ChangeSectionCache | application_source/sources/trackedobject.cpp:152-219 | the cache after any successful change, entry by entry: empty when the Beginning is changed or a section is moved onto it, otherwise the old entries below every cached cut key, unchanged |
| SectionEditProperties.MiddleChangeCache | application_source/sources/trackedobject.cpp:183-219 | for a section other than the Beginning, the cache is as `ChangedCache` states, including the in-place call when the new timestamp is taken |
| SectionEditProperties.DetachMiddleCache | application_source/sources/trackedobject.cpp:153-200 | the reset erasure at the current section's start, the erasure at the new timestamp and the one at the previous section's start leave exactly the entries below all cached cut keys |
| SectionEditProperties.InPlaceCache | application_source/sources/trackedobject.cpp:183-213 | changing a non-Beginning section in place with no cursor only erases the cache from its start |
| SectionEditProperties.SetSectionDispatch | application_source/sources/trackedobject.cpp:77-84 | a section after a set end is refused with nothing changed; an existing timestamp is handed to `change_trajectory_section` |
| SectionEditProperties.SetSectionBeforeBeginning | application_source/sources/trackedobject.cpp:86-96 | a section before the Beginning becomes the Beginning and empties the cache, keeping the cursor as written |
| SectionEditProperties.SetSectionBehindFrontier | application_source/sources/trackedobject.cpp:97-121 | a section at or before the frontier drops tracker and cursor and erases the cache from its timestamp when that is cached |
| SectionEditProperties.SetSectionPastFrontier | application_source/sources/trackedobject.cpp:124-139 | a section after the frontier keeps cache and cursor; the next section becomes the new one exactly when it is the first after the current section |
| SectionEditProperties.NextAfterInserted | application_source/sources/trackedobject.cpp:127-139 | after a tracker-less section is inserted, `upper_bound` of the current section restores the invariant, and it is the new section exactly when that is the first after the current one |
| SectionEditProperties.SetSectionKeepsValid | application_source/sources/trackedobject.cpp:75-142 | `set_trajectory_section` keeps the invariant and never places a section after a set end |
| SectionEditProperties.DeleteSectionRejectsBeginning | application_source/sources/trackedobject.cpp:225-229 | the Beginning cannot be deleted and nothing changes |
| SectionEditProperties.DeleteSectionEffects | application_source/sources/trackedobject.cpp:223-268 | any other timestamp's section is removed, the rest stay unchanged apart from the released tracker, and the cursor moves off |
| SectionEditProperties.DeleteSectionCache | application_source/sources/trackedobject.cpp:259-265 | the cache is erased from the start of the section before the deleted one (the last section when the timestamp is no section), or kept whole when that start is not cached |
| SectionEditProperties.StepCursorOffKeepsValid | application_source/sources/trackedobject.cpp:231-256 | moving the cursor off the deleted section keeps the invariant once it is erased |
| SectionEditProperties.StepCursorOffFields | application_source/sources/trackedobject.cpp:231-256 | moving the cursor off touches only the cursor and the current tracker: keys, cache and the sections apart from their trackers stay |
| SectionEditProperties.UnsetRemoveKeepsValid | application_source/sources/trackedobject.cpp:231-241 | clearing the cursor and then erasing any non-Beginning section keeps the invariant |
| SectionEditProperties.RemoveOtherKeepsValid | application_source/sources/trackedobject.cpp:242-256 | erasing a section that is neither the current nor the next one keeps the invariant |
| SectionEditProperties.ChangeEndFrameUnset | application_source/sources/trackedobject.cpp:276-290 | unsetting the end keeps the sections and cuts a fully processed cache at the last section's start |
| SectionEditProperties.ChangeEndFrameRejectsEarly | application_source/sources/trackedobject.cpp:293-294 | an end before the Beginning is refused and nothing changes |
| SectionEditProperties.ChangeEndFrameBounds | application_source/sources/trackedobject.cpp:293-337 | after setting the end no section and no cache key exceeds it, every surviving entry is unchanged, and `allProcessed` holds exactly when the end is cached |
| SectionEditProperties.ChangeEndFrameCache | application_source/sources/trackedobject.cpp:296-314 | the cache keeps exactly its entries at or before the end, unchanged, except that a fully processed object whose end moves later also loses those from the last section's cached start on |
| SectionEditProperties.ClipToEndKeepsValid | application_source/sources/trackedobject.cpp:316-328 | clipping sections at the end keeps exactly those at or before it and the invariant |
| SectionEditProperties.StopBeforeEnd | application_source/sources/trackedobject.cpp:316-326 | dropping a current section after the end and forgetting a later next section keeps the invariant and leaves no cursor past the end |
| SectionEditProperties.AtMostKeepsValid | application_source/sources/trackedobject.cpp:328-329 | erasing the sections after the end keeps the invariant once the Beginning and the cursor lie before it |
| TrackedObjects.TrackedObject.constructor | application_source/sources/trackedobject.cpp:22-42 | the new object is the initial store state |
| TrackedObjects.TrackedObject.AddSection | application_source/sources/trackedobject.cpp:65-73 | `std::map::insert`: an existing section is kept |
| TrackedObjects.TrackedObject.GetLastProcessedTimestamp | application_source/sources/trackedobject.cpp:578-589 | found exactly when the cache is non-empty, with its greatest key |
| TrackedObjects.TrackedObject.GetPosition | application_source/sources/trackedobject.cpp:433-443 | found exactly when the timestamp is cached, with its box |
| TrackedObjects.TrackedObject.DefocusTiles | application_source/sources/trackedobject.cpp:445-503 | a cached timestamp gives the tiles of the box with its start clamped to the frame (the corrected area, see Findings); otherwise nothing is drawn |
| TrackedObjects.TrackedObject.SetAllProcessed | application_source/sources/trackedobject.cpp:591-607 | the new state is the specification's |
| TrackedObjects.TrackedObject.SetTrajectorySection | application_source/sources/trackedobject.cpp:75-142 | the new state and result are the specification's, and an object that satisfied the invariant still does |
| TrackedObjects.TrackedObject.InsertSection | application_source/sources/trackedobject.cpp:86-139 | the new state is the specification's for a timestamp with no section yet |
| TrackedObjects.TrackedObject.DropCacheFrom | application_source/sources/trackedobject.cpp:100-119 | the new state is the cursor cleared with its tracker and the cache erased from the new section on |
| TrackedObjects.TrackedObject.ChangeTrajectorySection | application_source/sources/trackedobject.cpp:144-221 | the new state and result are the specification's, and an object that satisfied the invariant still does |
| TrackedObjects.TrackedObject.DeleteTrajectorySection | application_source/sources/trackedobject.cpp:223-272 | the new state and result are the specification's, and the invariant is kept |
| TrackedObjects.TrackedObject.ChangeEndFrame | application_source/sources/trackedobject.cpp:274-340 | the new state and result are the specification's, and the invariant is kept |
| TrackedObjects.TrackedObject.SetEnd | application_source/sources/trackedobject.cpp:291-336 | the setting branch leaves the state the specification's `SetEnd` gives |
| TrackedObjects.TrackedObject.CutCacheAtEnd | application_source/sources/trackedobject.cpp:296-314 | recording the end and cutting the cache after it leaves the specification's state |
| TrackedObjects.TrackedObject.TrackNext | application_source/sources/trackedobject.cpp:356-431 | the new state and box are the specification's |
| TrackedObjects.TrackedObject.EraseTrajectoryToComply | application_source/sources/trackedobject.cpp:631-644 | the new state is the specification's |
| Persistence.Save | application_source/headers/trackedobject.h:120-127 | the archive keeps the section keys and the whole cache |
| Persistence.Load | application_source/headers/trackedobject.h:120-127 | a loaded object has the archived keys and cache, no cursor and no tracker |
| Persistence.SaveLoad | application_source/headers/trackedobject.h:120-127 | saving a loaded archive gives the archive back |
| Persistence.LoadSave | application_source/headers/trackedobject.h:120-127 | loading a saved object gives it back without trackers, cursor and next-section pointer |
| Persistence.SaveIgnoresCursor | application_source/headers/trackedobject.h:334-337 | objects that differ only in trackers and cursor save the same |
| Persistence.LoadSaveKeepsValid | application_source/headers/trackedobject.h:120-127 | a saved and reloaded valid object is valid |
| Defocus.ULong | application_source/sources/trackedobject.cpp:462-463 | conversion to `unsigned long`: in range, identity on representable values |
| Defocus.Half | application_source/sources/trackedobject.cpp:462-463 | C integer halving, truncating toward zero |
| Defocus.WrittenArea | application_source/sources/trackedobject.cpp:462-473 | the tiled area as written lies within the frame |
| Defocus.ClampedArea | application_source/sources/trackedobject.cpp:462-473 | the intended area: within the frame, and holding exactly the frame's pixels of the box |
| Defocus.Tiles | application_source/sources/trackedobject.cpp:480-501 | the nested loop produces the tile grid |
| Defocus.ColumnTiles | application_source/sources/trackedobject.cpp:482-500 | the inner loop produces exactly the tiles the grid specification lists for one column |
| Defocus.GridInside | application_source/sources/trackedobject.cpp:480-501 | every tile lies in the area and is at most the defocus size |
| Defocus.GridCovers | application_source/sources/trackedobject.cpp:480-501 | every pixel of the area is covered by a tile |
| Defocus.ClampedTilesCoverBox | application_source/sources/trackedobject.cpp:462-501 | with clamping, every frame pixel of the box is covered |
| Defocus.WrittenAreaLeftOfFrameIsEmpty | application_source/sources/trackedobject.cpp:462-465 | as written, a box reaching past the left edge wraps and no tile is drawn |
| Defocus.LeftEdgeExample | application_source/sources/trackedobject.cpp:462-473 | a 20-wide box at x=5 gets no tiles as written but the area x in [0, 15) when clamped |
| FrameIndex.VideoTimestamps | application_source/sources/ffmpegplayer.cpp:143-194 | the index is the set of pts of the video packets |
| FrameIndex.FrameNumber | application_source/sources/ffmpegplayer.cpp:288 | the 1-based rank of a timestamp in the index |
| FrameIndex.DistinctCount | application_source/sources/ffmpegplayer.cpp:191-194 | a strictly increasing vector has as many elements as its set |
| FrameIndex.FrameNumberOfEntry | application_source/sources/ffmpegplayer.cpp:365-371 | the i-th vector entry has frame number i+1 |
| FrameIndex.FFmpegPlayer.AnalyzeVideo | application_source/sources/ffmpegplayer.cpp:140-205 | an indexed video has the set of video pts and an increasing vector of the same timestamps, rewound to the start |
| FrameIndex.FFmpegPlayer.GetFrameCount | application_source/sources/ffmpegplayer.cpp:214-220 | the count is the size of the timestamp set |
| FrameIndex.FFmpegPlayer.ReadFrame | application_source/sources/ffmpegplayer.cpp:406-481 | a read consumes the next timestamp and remembers the first one; at the end nothing changes |
| FrameIndex.FFmpegPlayer.GetCurrentFrame | application_source/sources/ffmpegplayer.cpp:275-294 | the frame's number is the rank of the last timestamp |
| FrameIndex.FFmpegPlayer.GetFrameByTimestamp | application_source/sources/ffmpegplayer.cpp:313-363 | on success the decoder stops at the first decoded timestamp at or after the target |
| FrameIndex.FFmpegPlayer.GetFrameByTime | application_source/sources/ffmpegplayer.cpp:296-311 | the target is the least indexed timestamp at or after the time, else the last one |
| FrameIndex.FFmpegPlayer.GetFrameByNumber | application_source/sources/ffmpegplayer.cpp:365-371 | the target is vector entry n-1 |
| FrameIndex.FFmpegPlayer.GetNextFrame | application_source/sources/ffmpegplayer.cpp:373-385 | the next decoded timestamp, numbered by its rank |
| FrameIndex.FFmpegPlayer.GetPreviousFrame | application_source/sources/ffmpegplayer.cpp:387-404 | false exactly at the first timestamp; otherwise it seeks the index predecessor and returns true |
| VideoTracking.TrackNextPastFrontier | application_source/sources/videotracker.cpp:243-284 | a frame after the frontier is appended as the new frontier and keeps the object's bounds |
| VideoTracking.TrackNextFields | application_source/sources/trackedobject.cpp:356-431 | `track_next` keeps the bounds, leaves a section current unless it marks the object processed, and marks it only on reaching the set end |
| VideoTracking.TrackNextInRun | application_source/sources/videotracker.cpp:263-280 | each catch-up step appends one frame as the new frontier |
| VideoTracking.CaughtUpIsCached | application_source/sources/videotracker.cpp:223-229 | a cached in-range timestamp takes the replay path |
| VideoTracking.Without | application_source/sources/videotracker.cpp:647-651 | erasing element id keeps the others in order |
| VideoTracking.VideoTracker.AddObject | application_source/sources/videotracker.cpp:67-89 | the object is appended first; -1 when the frame cannot be read, otherwise the new index with one tracked frame |
| VideoTracking.VideoTracker.SeekResumePoint | application_source/sources/videotracker.cpp:243-261 | catch-up resumes at a frame after the frontier |
| VideoTracking.VideoTracker.CatchUp | application_source/sources/videotracker.cpp:243-291 | catching up keeps old entries and reaches the target, or marks the object processed at the end of the video |
| VideoTracking.VideoTracker.Round | application_source/sources/videotracker.cpp:263-281 | one round tracks the frame, stops at the target with that frame as the frontier, or on cancel or a failed read, and otherwise goes on with a later frame |
| VideoTracking.VideoTracker.Advance | application_source/sources/videotracker.cpp:266 | a `track_next` in the run keeps what the run started from and, before the target, lets the run go on with any later frame |
| VideoTracking.VideoTracker.TrackOne | application_source/sources/videotracker.cpp:215-296 | a cached timestamp replays the cache; the fast path applies exactly one `track_next` |
| VideoTracking.VideoTracker.TrackFrame | application_source/sources/videotracker.cpp:206-300 | every object keeps its bounds; cached ones are untouched; on success every object in range has the frame or has finished |
| VideoTracking.VideoTracker.RunToEnd | application_source/sources/videotracker.cpp:308-371 | a processed object returns at once; success leaves the object finished |
| VideoTracking.VideoTracker.RoundToEnd | application_source/sources/videotracker.cpp:345-371 | one round tracks the frame and finishes the object at a set end or, marking it processed, when no frame follows; otherwise the run goes on with a later frame |
| VideoTracking.VideoTracker.TrackObject | application_source/sources/videotracker.cpp:305-375 | only the chosen object changes; success leaves it finished |
| VideoTracking.VideoTracker.TrackAll | application_source/sources/videotracker.cpp:377-410 | success leaves every object finished |
| VideoTracking.VideoTracker.GetObjectEnd | application_source/sources/videotracker.cpp:620-629 | found exactly when the end is set, with its timestamp, time and frame number |
| VideoTracking.VideoTracker.DeleteObject | application_source/sources/videotracker.cpp:647-651 | removes exactly that object, keeping the order |
| VideoTracking.VideoTracker.GetAllObjectsNames | application_source/sources/videotracker.cpp:653-661 | the names in object order |
| VideoTracking.VideoTracker.EraseObjectTrajectoriesToComply | application_source/sources/videotracker.cpp:663-670 | every object is trimmed as `erase_trajectory_to_comply` does |
| TimeConversion.ConvertTime | application_source/sources/timelabel.cpp:10-19 | hr, min, sec, ms recombine to the raw milliseconds, with min, sec < 60 and ms < 1000 |
| TimeConversion.ConvertTimeOfFields | application_source/sources/timelabel.cpp:10-19 | converting a recombined time gives its fields back |
| TimeConversion.DecimalValue | application_source/sources/timelabel.cpp:28-32 | a number's decimal text reads back as the number |
| TimeConversion.PaddedValue | application_source/sources/timelabel.cpp:28-32 | zero padding does not change the value |
| TimeConversion.LowestMarker | application_source/sources/timelabel.cpp:26-32 | `arg` replaces the lowest-numbered marker present |
| TimeConversion.Fill | application_source/sources/timelabel.cpp:26-32 | filling a marker removes it and leaves the other markers |
| TimeConversion.TemplateHasHoursField | application_source/sources/timelabel.cpp:24 | the template has an hours field exactly when hr is not 0 |
| TimeConversion.TimeArgs | application_source/sources/timelabel.cpp:26-32 | four `arg` calls with hours shown, three without |
| TimeConversion.TimeStringIsClock | application_source/sources/timelabel.cpp:21-33 | the corrected formatting is h:mm:ss.f with hours shown and m:ss.f without |
| TimeConversion.WrittenAgreesWhenHoursMatch | application_source/sources/timelabel.cpp:21-33 | as written the text is right when showHours matches hr not 0 |
| TimeConversion.WrittenShortTemplateWithHours | application_source/sources/timelabel.cpp:24-32 | as written, hr 0 with hours shown prints 0:mm.ss and loses the fraction |
| TimeConversion.WrittenLongTemplateWithoutHours | application_source/sources/timelabel.cpp:24-32 | as written, hr not 0 without hours shifts every field and leaves a marker |
| TimeConversion.FiveMinutesExample | application_source/sources/timelabel.cpp:21-33 | 307300 ms with hours shown prints "0:05.07" as written, "0:05:07.3" as intended |
| TimeConversion.OutOfText | application_source/sources/timelabel.cpp:77-80 | "%1 / %2" gives the two texts around " / " |
| TimeLabels.TimeLabel.constructor | application_source/sources/timelabel.cpp:35-40 | hours are shown and all times are zero |
| TimeLabels.TimeLabel.SetTotalTime | application_source/sources/timelabel.cpp:48-58 | hours are shown exactly when the total has an hour |
| TimeLabels.TimeLabel.DisplayTime | application_source/sources/timelabel.cpp:60-81 | a current time past the total with more seconds shows the total; the text is the corrected clock text (template chosen by `showHours`, see Findings) and includes the total on request |
| TimeLabels.TimeLabel.SetFrameCount | application_source/sources/timelabel.cpp:83-86 | only the frame count changes |
| TimeLabels.TimeLabel.DisplayFrameNum | application_source/sources/timelabel.cpp:88-94 | "n / total" with the total, "n" without |
| TrackArgs.StepAt | application_source/3rd_party/tracking_algorithm/track.cpp:708-829 | one token moves the index forward within argv, or returns HELP, EBAD_ARGC or EBAD_NUMBER |
| TrackArgs.EvalTypeStep | application_source/3rd_party/tracking_algorithm/track.cpp:712-732 | `-et` moves forward or fails with EBAD_ARGC or EBAD_NUMBER |
| TrackArgs.ResizeStep | application_source/3rd_party/tracking_algorithm/track.cpp:733-742 | `-rs` moves forward or fails with EBAD_ARGC or EBAD_NUMBER |
| TrackArgs.ValueStep | application_source/3rd_party/tracking_algorithm/track.cpp:743-820 | a one-number option consumes two tokens or fails with EBAD_ARGC or EBAD_NUMBER |
| TrackArgs.Parse | application_source/3rd_party/tracking_algorithm/track.cpp:705-831 | the result code is one of the four codes; all tokens consumed gives EOK |
| TrackArgs.ArgParse | application_source/3rd_party/tracking_algorithm/track.cpp:705-831 | the loop computes `Parse` from the first argument; `-h` first gives HELP with the parameters untouched |
| TrackArgs.EvalTypeOption | application_source/3rd_party/tracking_algorithm/track.cpp:712-732 | the `-et` branch computes its step |
| TrackArgs.ValueOption | application_source/3rd_party/tracking_algorithm/track.cpp:743-820 | a one-number branch computes its step |
| TrackArgs.DefaultsInRange | application_source/3rd_party/tracking_algorithm/track.cpp:357-358 | the default parameters are in range |
| TrackArgs.StepKeepsInRange | application_source/3rd_party/tracking_algorithm/track.cpp:708-829 | an accepted token keeps every parameter in range |
| TrackArgs.AcceptedParamsInRange | application_source/3rd_party/tracking_algorithm/track.cpp:705-831 | EOK from in-range parameters yields in-range parameters: at least one particle, non-negative noise, resize at least 1x1 |
| TrackArgs.EvalTypeWord | application_source/3rd_party/tracking_algorithm/track.cpp:712-732 | def/gray/rgb give 0/1/2, hyb gives 3, any other word leaves the type unchanged |
| TrackArgs.HelpStops | application_source/3rd_party/tracking_algorithm/track.cpp:710-711 | `-h` returns HELP at once |
| TrackArgs.MissingValueIsArgcError | application_source/3rd_party/tracking_algorithm/track.cpp:714-746 | an option missing its values returns EBAD_ARGC |
| TrackArgs.RejectedValueIsNumberError | application_source/3rd_party/tracking_algorithm/track.cpp:728-790 | a value below its lower bound returns EBAD_NUMBER |
| TrackArgs.StepIgnoresLaterTokens | application_source/3rd_party/tracking_algorithm/track.cpp:708-829 | an accepted step does not depend on tokens after it |
| TrackArgs.TrailingFileWins | application_source/3rd_party/tracking_algorithm/track.cpp:825-830 | a trailing unrecognised token becomes the video file, the last one winning |
| DynamicParams.Shifted | application_source/3rd_party/tracking_algorithm/track.cpp:1139-1148 | the newest point in front, the rest moved one slot back |
| DynamicParams.UpdatedHistory | application_source/3rd_party/tracking_algorithm/track.cpp:1139-1148 | after updates, slot k holds the k-th most recent point, or an older initial one |
| DynamicParams.OverlapPointsAreRecent | application_source/3rd_party/tracking_algorithm/track.cpp:1139-1148 | after ten updates slot 4 and slot 9 hold the 5th and 10th most recent points |
| DynamicParams.InitDynPts | application_source/3rd_party/tracking_algorithm/track.cpp:1129-1138 | all points set to the best particle's centre, which is remembered |
| DynamicParams.UpdateDynPts | application_source/3rd_party/tracking_algorithm/track.cpp:1139-1148 | the array becomes the shifted history |
| DynamicParams.ParticleCount | application_source/3rd_party/tracking_algorithm/track.cpp:1033-1035 | between 100 and 600 particles |
| DynamicParams.ParticleCountMonotone | application_source/3rd_party/tracking_algorithm/track.cpp:1033-1035 | more motion never means fewer particles; none gives 100, 40 pixels or more gives 600 |
| DynamicParams.MotionMemory.DynamicParamMotion | application_source/3rd_party/tracking_algorithm/track.cpp:1021-1041 | noise is displacement + 5 and the particle count follows it; the first call sees no motion; the position is remembered |
| PathNames.LastIndexOf | application_source/sources/mainwindow.cpp:621 | `find_last_of`: the last position of the character, None exactly when absent |
| PathNames.FirstIndexOf | application_source/sources/avwriter.cpp:84 | `find`: the first position of the character, None exactly when absent |
| PathNames.Extension | application_source/sources/mainwindow.cpp:654-657 | empty exactly when there is no '.', otherwise a '.' followed by no other '.' |
| PathNames.Stem | application_source/sources/mainwindow.cpp:624 | the stem followed by the extension is the name |
| PathNames.ExtensionOfExtension | application_source/sources/mainwindow.cpp:654-657 | an extension is its own extension |
| PathNames.ExtensionAfter | application_source/sources/avwriter.cpp:93-102 | text in front of a name with a '.' does not change its extension |
| PathNames.OutputName | application_source/sources/mainwindow.cpp:620-630 | seven characters longer than the input |
| PathNames.OutputNameKeepsExtension | application_source/sources/mainwindow.cpp:620-630 | the default output name keeps the input's extension and its stem gains "_output" |
| PathNames.WithSuffix | application_source/sources/mainwindow.cpp:1900-1912 | the name ends with the suffix, appended only when missing |
| PathNames.WithSuffixIdempotent | application_source/sources/mainwindow.cpp:1900-1912 | appending twice is appending once; a name already ending with it is kept |
| PathNames.ProjectName | application_source/sources/mainwindow.cpp:1926-1931 | a tail of the path with no '/' |
| PathNames.ProjectNameSplitsPath | application_source/sources/mainwindow.cpp:1926-1931 | the path is a directory part ending in '/' (or empty) followed by the project name |
| PathNames.FormatExtension | application_source/sources/avwriter.cpp:80-88 | the prefix of the format name before the first ',', the whole name exactly when it has no ',' |
| MainWindowLogic.ObjectName | application_source/sources/mainwindow.cpp:1332 | "Object " followed by digits |
| MainWindowLogic.ObjectNameInjective | application_source/sources/mainwindow.cpp:1349-1351 | different numbers give different names |
| MainWindowLogic.DefaultObjectName | application_source/sources/mainwindow.cpp:1332-1351 | the first "Object N" with N above the count that is not listed |
| MainWindowLogic.CheckEnteredName | application_source/sources/mainwindow.cpp:1375-1400 | accepted exactly when non-empty and not listed; renaming to the same name keeps the old one |
| MainWindowLogic.DefaultNameAccepted | application_source/sources/mainwindow.cpp:1349-1400 | the default name is accepted for a new object |
| MainWindowLogic.NextColorId | application_source/sources/mainwindow.cpp:1318 | one more than the greatest id: fresh and above all |
| MainWindowLogic.MainWindow.Slower | application_source/sources/mainwindow.cpp:584-588 | one step slower down to -4, then no change |
| MainWindowLogic.MainWindow.constructor | application_source/sources/mainwindow.cpp:2108-2133 | the restored settings: normal speed, no custom colours, the built-in colour table, and no project file or name |
| MainWindowLogic.MainWindow.PickColor | application_source/sources/mainwindow.cpp:1305-1323 | Cancel changes nothing; otherwise "Custom #k" is added under a fresh id |
| MainWindowLogic.MainWindow.SaveProject | application_source/sources/mainwindow.cpp:1890-1931 | no file returns false; otherwise the extension is appended when missing and the display name is the path's tail |
| MainWindowLogic.MainWindow.LoadProject | application_source/sources/mainwindow.cpp:1972-2063 | the file name is stored before the empty check; Cancel changes nothing else; otherwise the colour table is cleared, stays empty when the project cannot be read, and is the archived one with its custom count when it can; the display name changes only once the video opens too |
| AVWriterNaming.Allocate | application_source/sources/avwriter.cpp:105-122 | a context exists exactly when a muxer of that name exists |
| AVWriterNaming.PrepareOutput | application_source/sources/avwriter.cpp:80-123 | the output name only ever extends the requested one |
| AVWriterNaming.UsableFormatKeepsInputExtension | application_source/sources/avwriter.cpp:90-102 | with a usable format the output name ends with the input extension |
| AVWriterNaming.FallbackToMpeg | application_source/sources/avwriter.cpp:108-123 | no usable context appends ".mpg" and uses mpeg; otherwise the input extension is appended only when it differs |
| AVWriterNaming.AVWriter.InitializeOutputName | application_source/sources/avwriter.cpp:80-125 | the staged updates compute `PrepareOutput`; success exactly when a context exists |
| ImageLabels.Clamp | application_source/sources/imagelabel.cpp:130-134 | the cursor clamped into [0, size-1], unchanged when inside |
| ImageLabels.SpanOf | application_source/sources/imagelabel.cpp:140-156 | start is the smaller end, length the distance, never negative |
| ImageLabels.SpanSymmetric | application_source/sources/imagelabel.cpp:140-156 | dragging either way gives the same rectangle |
| ImageLabels.DragStaysInLabel | application_source/sources/imagelabel.cpp:130-156 | a drag pressed inside the label stays inside it |
| ImageLabels.CentredSelection | application_source/sources/imagelabel.cpp:196-204 | half the image size, inside it, centred within a pixel, angle 0 |
| ImageLabels.ImageLabel.constructor | application_source/sources/imagelabel.cpp:13-20 | selection disabled, not pressed, angle 0 |
| ImageLabels.ImageLabel.SetImage | application_source/sources/imagelabel.cpp:59-74 | the label and the shown image take the scaled size; the selection, the drag state and the size the selection was last scaled to stay as they were |
| ImageLabels.ImageLabel.ResizeEvent | application_source/sources/imagelabel.cpp:76-79 | a resize ends the drag |
| ImageLabels.ImageLabel.MousePress | application_source/sources/imagelabel.cpp:84-97 | disabled changes nothing; enabled starts a drag at the cursor |
| ImageLabels.ImageLabel.MouseRelease | application_source/sources/imagelabel.cpp:99-116 | enabled ends the drag, the rectangle stays |
| ImageLabels.ImageLabel.MouseMove | application_source/sources/imagelabel.cpp:118-167 | without an enabled drag nothing changes; otherwise the rectangle spans the press and the clamped cursor |
| ImageLabels.ImageLabel.SetSelectionEnabled | application_source/sources/imagelabel.cpp:186-206 | disabling ends the drag; enabling resets to the centred box |

## Left out

- The particle filter is an oracle `Tracker(init, step)` over frames and boxes. Its floating-point scoring and its random numbers are not modelled.
- Decoding, seeking and time conversion in FFmpeg are parameters:
  - the decoder is a strictly increasing stream of timestamps;
  - the container seek is a function from a target to a landing position;
  - `av_rescale_q` is a function from timestamp to milliseconds.
- Pixels, drawing, `Mat2QImage`, painting, dialogs, progress dialogs and `processEvents` are left out. Cancellation is a boolean function of the timestamp just tracked.
- `VideoTracker` holds its objects as values. Aliasing through shared pointers is not modelled.
- `track_frame` has a fast path that reads an uninitialised timestamp when the cache is empty. The model treats that value as different from the previous timestamp.
- The `assert` in `track_frame` is modelled as a release build, where it does nothing.
- The `currentFrame`/`tempFrame` copies and `get_current_frame` after a cancellation are not modelled.
- Fields the constructors leave uninitialised are taken as zero.
- 64-bit and 32-bit overflow is not modelled:
  - timestamps;
  - the object counter in `enter_object_name`;
  - the coordinate differences in `dynamicParamMotion`.
- `atoi`/`atof` are parameters. The float-to-int truncation of the value `atof` returns is folded into that parameter.
- Particle coordinates are integers.
- `dynamicParamEval`, `evaluateSuccess`, `get_selection` scaling, the player slider and `speed_general` are left out because they compute in floating point.
- The `main` loop of the tracker program, its mouse callbacks and its test file I/O are left out.
- `enter_object_name` shows its dialog in a loop. The model gives the verdict on one entered name.
- `tr()` is the identity, and the combo box lookup is exact membership.
- `faster()` and `original_speed()` are not modelled; only `slower()` is.
- `load_project`: deserialisation and opening the video are one boolean input.
- `initialize_output` after the context is chosen (streams, codecs, headers) is left out.
- `set_image` is modelled only for the sizes it stores. The resize event it may trigger is a separate call.
- TrackedObjects.TrackedObject.DefocusTiles: computes the tiles of the corrected area `Defocus.ClampedArea`, not the wrapped `unsigned long` start of the source (`Defocus.WrittenArea`), so a box reaching past the left or top edge gets tiles here where the program draws none; the as-written behaviour is `Defocus.WrittenAreaLeftOfFrameIsEmpty` (see Findings).
- TimeLabels.TimeLabel.DisplayTime: the text uses the corrected template chosen by `showHours`, not `Time2QString`'s template chosen by `time.hr`, so a current time under an hour with a total over an hour reads h:mm:ss.f here where the program prints a shifted text; the as-written text is `TimeConversion.WrittenTimeString` (see Findings).
- MainWindowLogic.MainWindow.LoadProject: a project that cannot be read is modelled as failing before anything is read, so the colour table stays empty and the custom-colour count unchanged; a table or count read part-way before the failure is not modelled.
- Time2QString: only the templates and markers the program uses are modelled (markers are single digits).
- TimeLabel: the text is the result of the template. Qt's `arg` re-scanning of replaced text is not modelled, since none of the inserted digits contain '%'.

## Findings

| source | as written | input that shows it | evidently intended | confidence | as-written member | corrected member |
|---|---|---|---|---|---|---|
| application_source/sources/timelabel.cpp:24-32 | the template is chosen by `time.hr` but the hours argument by `showHours`, so the arguments land in the wrong markers when they disagree | 307300 ms with `showHours` true (a total over an hour) prints "0:05.07" | "0:05:07.3": h:mm:ss.f whenever hours are shown | high, not executed | TimeConversion.FiveMinutesExample | TimeConversion.TimeStringIsClock |
| application_source/sources/trackedobject.cpp:462-473 | `position.x - position.width/2` is stored in an `unsigned long`, so a box reaching past the left or top edge wraps to a huge start and no tile is drawn | a box of width 20 at x = 5 in a 100-pixel frame | the start clamped to 0, defocusing the part of the box inside the frame | high, not executed | Defocus.LeftEdgeExample | Defocus.ClampedTilesCoverBox |
