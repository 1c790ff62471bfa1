/** The frame index and exact seeking of `FFmpegPlayer`.

    The container is reduced to its packet list (`analyze_video` reads it
    once to index the video timestamps) and the decoder to the sequence of
    timestamps of the frames it outputs, read one by one from a position.
    `av_seek_frame` is an oracle: for a target timestamp it fails (None) or
    moves the decoder to some position of that sequence, which may lie
    after the target; the seek to the first packet is the boolean
    `rewindOk`.  Codecs, packets' payload and time-base rescaling are not
    modelled. */
module FrameIndex {
  import opened Common
  import opened OrderedMaps

  /** A packet as `analyze_video` sees it: whether it belongs to the video
      stream, and its presentation timestamp. */
  datatype Packet = Packet(video: bool, pts: int)

  /** How opening ends: indexed, cancelled by the user
      (`UserCanceledOpeningException`), or unable to rewind
      (`OpenException`). */
  datatype Opening = Indexed | Canceled | OpenFailed

  /** The timestamps of the video packets. */
  function VideoTimestamps(packets: seq<Packet>): (r: set<int>)
    ensures forall t :: t in r <==> exists k :: 0 <= k < |packets| && packets[k].video && packets[k].pts == t
    decreases |packets|
  {
    if packets == [] then {}
    else
      var rest := VideoTimestamps(packets[..|packets| - 1]);
      var last := packets[|packets| - 1];
      assert forall k :: 0 <= k < |packets| - 1 ==> packets[..|packets| - 1][k] == packets[k];
      if last.video then rest + {last.pts} else rest
  }

  /** The entries of a sequence, as a set. */
  function Elements(v: seq<int>): set<int>
  {
    set x | x in v
  }

  lemma ElementsSnoc(v: seq<int>, t: int)
    ensures Elements(v + [t]) == Elements(v) + {t}
  {
    assert forall x :: x in v + [t] <==> x in v || x == t;
  }

  /** Moving an element from the rest to the end of the sequence keeps
      their union. */
  lemma MoveLeast(v: seq<int>, rest: set<int>, t: int)
    requires t in rest
    ensures Elements(v + [t]) + (rest - {t}) == Elements(v) + rest
  {
    ElementsSnoc(v, t);
  }

  predicate StrictlyIncreasing(v: seq<int>)
  {
    forall i, j :: 0 <= i < j < |v| ==> v[i] < v[j]
  }

  /** Appending something above the last entry keeps a sequence strictly
      increasing. */
  lemma AppendIncreasing(v: seq<int>, t: int)
    requires StrictlyIncreasing(v)
    requires v != [] ==> v[|v| - 1] < t
    ensures StrictlyIncreasing(v + [t])
  {
    if v != [] {
      assert forall i :: 0 <= i < |v| ==> v[i] <= v[|v| - 1];
    }
  }

  /** The 1-based frame number `get_current_frame` reports: the rank of the
      timestamp in the index, and one past the count when the timestamp is
      not indexed (`find` gives `end()`). */
  function FrameNumber(index: set<int>, timestamp: int): (n: nat)
    ensures 1 <= n <= |index| + 1
  {
    if timestamp in index then
      var below := set y | y in index && y < timestamp;
      assert below <= index - {timestamp};
      CardinalityMonotone(below, index - {timestamp});
      |below| + 1
    else |index| + 1
  }

  /** Set-size helper for `FrameNumber`. */
  lemma CardinalityMonotone(a: set<int>, b: set<int>)
    requires a <= b
    ensures |a| <= |b|
  {
    assert b == a + (b - a);
  }

  /** A strictly increasing sequence has as many distinct elements as it
      has entries. */
  lemma {:induction false} DistinctCount(v: seq<int>)
    requires StrictlyIncreasing(v)
    ensures |Elements(v)| == |v|
    decreases |v|
  {
    if v != [] {
      var init := v[..|v| - 1];
      DistinctCount(init);
      assert v == init + [v[|v| - 1]];
      ElementsSnoc(init, v[|v| - 1]);
    }
  }

  /** In a strictly increasing index, the entry at position `i` has frame
      number `i + 1`: `get_frame_by_number` and `get_current_frame` agree. */
  lemma FrameNumberOfEntry(v: seq<int>, i: int)
    requires StrictlyIncreasing(v)
    requires 0 <= i < |v|
    ensures FrameNumber(Elements(v), v[i]) == i + 1
  {
    var index := Elements(v);
    var below := set y | y in index && y < v[i];
    assert below == Elements(v[..i]) by {
      forall y | y in below ensures y in v[..i] {
        var k :| 0 <= k < |v| && v[k] == y;
        assert k < i;
        assert v[..i][k] == y;
      }
    }
    DistinctCount(v[..i]);
  }

  /** `t` is the frame the decoder reached, reading forward from `start`
      to `end`: the first frame read was not after `target`, every later
      frame but the last was before it, and the last is not before it. */
  ghost predicate ReachedFrom(stream: seq<int>, start: nat, end: nat, target: int)
  {
    && start < end <= |stream|
    && stream[start] <= target
    && (forall k :: start < k < end - 1 ==> stream[k] < target)
    && (start < end - 1 ==> stream[start] < target)
    && target <= stream[end - 1]
  }

  class FFmpegPlayer {
    /** The timestamps of the frames the decoder outputs, in order. */
    const stream: seq<int>
    /** The decoder's read position in `stream`. */
    var position: nat
    var framesTimestampSet: set<int>
    var framesIndexVector: seq<int>
    var lastTimestamp: int
    var firstTimestamp: int
    var firstTimestampSet: bool
    var firstPts: int
    var firstPtsSet: bool

    /** The constructor up to `analyze_video`: nothing indexed, nothing
        decoded. */
    constructor (decoded: seq<int>)
      ensures stream == decoded && position == 0
      ensures framesTimestampSet == {} && framesIndexVector == []
      ensures !firstTimestampSet && !firstPtsSet && firstTimestamp == 0 && firstPts == 0
    {
      stream := decoded;
      position := 0;
      framesTimestampSet := {};
      framesIndexVector := [];
      lastTimestamp := 0;
      firstTimestamp := 0;
      firstTimestampSet := false;
      firstPts := 0;
      firstPtsSet := false;
    }

    /** `analyze_video`: one pass over the packets.  The first video packet
        only records `firstPts` and rewinds to the start, so every video
        timestamp is inserted once; then the vector copy is filled in
        increasing order and the decoder is rewound.  `canceled(n)` is what
        the progress dialog reports before the `n`-th read. */
    method AnalyzeVideo(packets: seq<Packet>, canceled: nat -> bool, rewindOk: bool) returns (result: Opening)
      requires framesTimestampSet == {} && framesIndexVector == [] && !firstPtsSet
      modifies this
      ensures result == Indexed ==> framesTimestampSet == VideoTimestamps(packets)
      ensures result == Indexed ==> StrictlyIncreasing(framesIndexVector)
      ensures result == Indexed ==> Elements(framesIndexVector) == framesTimestampSet
      ensures result == Indexed ==> |framesIndexVector| == |framesTimestampSet|
      ensures result == Indexed ==> position == 0
      ensures result == OpenFailed ==> !rewindOk
    {
      var k := 0;
      var attempts := 0;
      while true
        invariant k <= |packets|
        invariant firstPtsSet ==> framesTimestampSet == VideoTimestamps(packets[..k])
        invariant !firstPtsSet ==> framesTimestampSet == {} && forall i :: 0 <= i < k ==> !packets[i].video
        invariant framesIndexVector == []
        decreases if firstPtsSet then 0 else 1, |packets| - k
      {
        if canceled(attempts) {
          return Canceled;
        }
        attempts := attempts + 1;
        if k == |packets| {
          break;
        }
        var packet := packets[k];
        k := k + 1;
        if packet.video {
          if !firstPtsSet {
            firstPts := packet.pts;
            firstPtsSet := true;
            if !rewindOk {
              return OpenFailed;
            }
            k := 0;
            continue;
          }
          framesTimestampSet := framesTimestampSet + {packet.pts};
        }
        assert packets[..k] == packets[..k - 1] + [packet];
      }
      assert packets[..k] == packets;
      if !firstPtsSet {
        assert VideoTimestamps(packets) == {};
      }
      framesIndexVector := InIncreasingOrder(framesTimestampSet);
      DistinctCount(framesIndexVector);
      if !rewindOk {
        return OpenFailed;
      }
      position := 0;
      return Indexed;
    }

    /** The range-for over the ordered set that fills `framesIndexVector`. */
    static method InIncreasingOrder(index: set<int>) returns (v: seq<int>)
      ensures StrictlyIncreasing(v)
      ensures Elements(v) == index
    {
      v := [];
      var rest := index;
      while rest != {}
        invariant StrictlyIncreasing(v)
        invariant Elements(v) + rest == index
        invariant v != [] ==> forall y :: y in rest ==> v[|v| - 1] < y
        decreases |rest|
      {
        var t := Least(rest);
        MoveLeast(v, rest, t);
        AppendIncreasing(v, t);
        v := v + [t];
        rest := rest - {t};
      }
    }

    /** `get_frame_count`. */
    method GetFrameCount() returns (count: nat)
      ensures count == |framesTimestampSet|
    {
      return |framesTimestampSet|;
    }

    /** `read_frame` for video frames: the next decoded frame becomes the
        current one, and the first one ever read is remembered. */
    method ReadFrame() returns (ok: bool)
      modifies this
      ensures ok <==> old(position) < |stream|
      ensures ok ==> position == old(position) + 1 && lastTimestamp == stream[old(position)]
      ensures ok ==> firstTimestampSet
                     && firstTimestamp == (if old(firstTimestampSet) then old(firstTimestamp) else lastTimestamp)
      ensures !ok ==> position == old(position) && lastTimestamp == old(lastTimestamp)
      ensures !ok ==> firstTimestampSet == old(firstTimestampSet) && firstTimestamp == old(firstTimestamp)
      ensures framesTimestampSet == old(framesTimestampSet) && framesIndexVector == old(framesIndexVector)
    {
      if position >= |stream| {
        return false;
      }
      lastTimestamp := stream[position];
      position := position + 1;
      if !firstTimestampSet {
        firstTimestamp := lastTimestamp;
        firstTimestampSet := true;
      }
      return true;
    }

    /** `get_current_frame`: the current frame's timestamp, its rank in the
        index and its time position (`timePositionOf` stands for the
        time-base rescaling). */
    method GetCurrentFrame(timePositionOf: int -> nat) returns (frame: Frame)
      ensures frame.timestamp == lastTimestamp
      ensures frame.frameNumber == FrameNumber(framesTimestampSet, lastTimestamp)
      ensures frame.timePosition == timePositionOf(lastTimestamp)
    {
      frame := Frame(lastTimestamp, timePositionOf(lastTimestamp), FrameNumber(framesTimestampSet, lastTimestamp));
    }

    /** `get_frame_by_timestamp`: seek at or before the target, stepping the
        seek target back through the index while the decoder lands after
        the target, then decode forward to the first frame not before it.
        Fails when a seek or a read fails, or when the decoder still lands
        after the target once the first indexed timestamp was tried. */
    method GetFrameByTimestamp(seek: int -> Option<nat>, timestamp: int) returns (ok: bool)
      requires StrictlyIncreasing(framesIndexVector)
      modifies this
      ensures ok ==> timestamp <= lastTimestamp
      ensures ok ==> exists start :: ReachedFrom(stream, start, position, timestamp)
      ensures ok ==> 0 < position <= |stream| && lastTimestamp == stream[position - 1]
      ensures framesTimestampSet == old(framesTimestampSet) && framesIndexVector == old(framesIndexVector)
    {
      var cursor: nat := IndexOf(framesIndexVector, timestamp);
      var seekTimestamp := timestamp;
      ghost var start: nat := 0;
      while true
        invariant cursor <= |framesIndexVector|
        invariant framesTimestampSet == old(framesTimestampSet) && framesIndexVector == old(framesIndexVector)
        decreases cursor
      {
        var landing := seek(seekTimestamp);
        if landing.None? {
          return false;
        }
        position := landing.value;
        start := position;
        ok := ReadFrame();
        if !ok {
          return false;
        }
        if lastTimestamp <= timestamp {
          break;
        }
        if cursor == 0 {
          return false;
        }
        cursor := cursor - 1;
        seekTimestamp := framesIndexVector[cursor];
      }
      while lastTimestamp < timestamp
        invariant start < position <= |stream|
        invariant stream[start] <= timestamp
        invariant lastTimestamp == stream[position - 1]
        invariant forall k :: start < k < position - 1 ==> stream[k] < timestamp
        invariant start < position - 1 ==> stream[start] < timestamp
        invariant framesTimestampSet == old(framesTimestampSet) && framesIndexVector == old(framesIndexVector)
        decreases |stream| - position
      {
        ok := ReadFrame();
        if !ok {
          return false;
        }
      }
      assert ReachedFrom(stream, start, position, timestamp);
      return true;
    }

    /** `framesTimestampSet.find`, as a position in the vector copy: the
        index of `t`, or the length (`end()`) when `t` is not indexed. */
    static method IndexOf(v: seq<int>, t: int) returns (i: nat)
      ensures i <= |v|
      ensures i < |v| ==> v[i] == t
      ensures i == |v| ==> t !in v
    {
      i := 0;
      while i < |v| && v[i] != t
        invariant i <= |v|
        invariant forall k :: 0 <= k < i ==> v[k] != t
      {
        i := i + 1;
      }
    }

    /** `get_frame_by_time`: the first indexed timestamp not before the
        approximate one, or the last indexed timestamp when there is none;
        `approximate` stands for the rescaled time. */
    method GetFrameByTime(seek: int -> Option<nat>, approximate: int) returns (ok: bool, target: int)
      requires framesTimestampSet != {}
      requires StrictlyIncreasing(framesIndexVector)
      modifies this
      ensures target in old(framesTimestampSet)
      ensures approximate <= target ==> forall t :: t in old(framesTimestampSet) && approximate <= t ==> target <= t
      ensures target < approximate ==> forall t :: t in old(framesTimestampSet) ==> t <= target
      ensures ok ==> target <= lastTimestamp && exists start :: ReachedFrom(stream, start, position, target)
    {
      var bound := LowerBound(framesTimestampSet, approximate);
      target := if bound.Some? then bound.value else Greatest(framesTimestampSet);
      ok := GetFrameByTimestamp(seek, target);
    }

    /** `get_frame_by_number`: the vector is indexed without a bounds check,
        so the number must be in range. */
    method GetFrameByNumber(seek: int -> Option<nat>, frameNumber: nat) returns (ok: bool, target: int)
      requires 1 <= frameNumber <= |framesIndexVector|
      requires StrictlyIncreasing(framesIndexVector)
      modifies this
      ensures target == old(framesIndexVector)[frameNumber - 1]
      ensures ok ==> target <= lastTimestamp && exists start :: ReachedFrom(stream, start, position, target)
    {
      target := framesIndexVector[frameNumber - 1];
      ok := GetFrameByTimestamp(seek, target);
    }

    /** `get_next_frame`: one more decoded frame. */
    method GetNextFrame(timePositionOf: int -> nat) returns (ok: bool, frame: Frame)
      modifies this
      ensures ok <==> old(position) < |stream|
      ensures ok ==> frame.timestamp == stream[old(position)] && position == old(position) + 1
      ensures ok ==> frame.frameNumber == FrameNumber(framesTimestampSet, frame.timestamp)
      ensures framesTimestampSet == old(framesTimestampSet) && framesIndexVector == old(framesIndexVector)
    {
      ok := ReadFrame();
      frame := Frame(0, 0, 0);
      if ok {
        frame := GetCurrentFrame(timePositionOf);
      }
    }

    /** `get_previous_frame`: false at the first decoded frame; otherwise
        seek the index entry before the current one and report true whether
        or not that seek succeeds.  Stepping back from the first index
        entry is undefined, hence the precondition. */
    method GetPreviousFrame(seek: int -> Option<nat>) returns (ok: bool, previous: int)
      requires StrictlyIncreasing(framesIndexVector)
      requires framesTimestampSet != {}
      requires lastTimestamp != firstTimestamp && lastTimestamp in framesTimestampSet ==>
                 exists y :: y in framesTimestampSet && y < lastTimestamp
      modifies this
      ensures ok <==> old(lastTimestamp) != old(firstTimestamp)
      ensures ok ==> previous == StepBack(old(framesTimestampSet), old(lastTimestamp))
      ensures !ok ==> position == old(position) && lastTimestamp == old(lastTimestamp)
    {
      previous := 0;
      if lastTimestamp == firstTimestamp {
        return false, previous;
      }
      previous := StepBack(framesTimestampSet, lastTimestamp);
      var _ := GetFrameByTimestamp(seek, previous);
      ok := true;
    }
  }
}
