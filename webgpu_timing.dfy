// GPU timing: a ring of three timing frames, each holding up to 64 named
// passes with two timestamp queries (begin, end) per pass.

module WebgpuTiming {
  import opened Wrappers

  const MaxTimingPasses: nat := 64
  const TimingRingSize: nat := 3
  /// Timestamp queries per frame (begin and end of every pass).
  const QueriesPerFrame: nat := MaxTimingPasses * 2
  /// Bytes of the resolve and readback buffers (one u64 per query).
  const TimingBufferSize: nat := QueriesPerFrame * 8

  datatype TimingFrame = TimingFrame(passNames: seq<string>, passCount: nat)
  {
    ghost predicate Valid()
    {
      |passNames| == passCount <= MaxTimingPasses
    }
  }

  const EmptyFrame := TimingFrame([], 0)

  /// One timed pass read back from the GPU, as raw begin and end ticks.
  datatype TimingResult = TimingResult(name: string, beginTick: nat, endTick: nat)

  /// The results readback produces from a frame's pass names and its
  /// timestamp array: pass i gets timestamps 2i and 2i+1 when 2i+1 is in range.
  method CollectResults(names: seq<string>, timestamps: seq<nat>) returns (results: seq<TimingResult>)
    ensures |results| == if |names| <= |timestamps| / 2 then |names| else |timestamps| / 2
    ensures forall i | 0 <= i < |results| ::
      results[i] == TimingResult(names[i], timestamps[2 * i], timestamps[2 * i + 1])
  {
    results := [];
    var i := 0;
    while i < |names|
      invariant 0 <= i <= |names|
      invariant |results| == if i <= |timestamps| / 2 then i else |timestamps| / 2
      invariant forall j | 0 <= j < |results| ::
        results[j] == TimingResult(names[j], timestamps[2 * j], timestamps[2 * j + 1])
    {
      var beginIdx := i * 2;
      var endIdx := beginIdx + 1;
      if endIdx < |timestamps| {
        results := results + [TimingResult(names[i], timestamps[beginIdx], timestamps[endIdx])];
      }
      i := i + 1;
    }
  }

  class TimingQueryPool {
    var frames: Option<seq<TimingFrame>>
    var currentFrame: nat
    var results: seq<TimingResult>

    ghost predicate Valid()
      reads this
    {
      currentFrame < TimingRingSize &&
      (frames.Some? ==>
        |frames.value| == TimingRingSize &&
        forall i | 0 <= i < TimingRingSize :: frames.value[i].Valid())
    }

    constructor ()
      ensures Valid()
      ensures frames == None && currentFrame == 0 && results == []
    {
      frames := None;
      currentFrame := 0;
      results := [];
    }

    /// Creates the three frames once; later calls change nothing.
    method Init()
      requires Valid()
      modifies this
      ensures Valid()
      ensures old(frames).Some? ==> frames == old(frames)
      ensures old(frames).None? ==> frames == Some([EmptyFrame, EmptyFrame, EmptyFrame])
      ensures currentFrame == old(currentFrame) && results == old(results)
    {
      if frames.Some? {
        return;
      }
      frames := Some([EmptyFrame, EmptyFrame, EmptyFrame]);
    }

    /// Allocates a pass slot in the current frame and returns its first
    /// query index, or None when timing is off or the frame is full.
    method BeginPass(name: string) returns (queryIndex: Option<nat>)
      requires Valid()
      modifies this
      ensures Valid()
      ensures currentFrame == old(currentFrame) && results == old(results)
      ensures old(frames).None? ==> queryIndex.None? && frames == old(frames)
      ensures old(frames).Some? && old(frames).value[currentFrame].passCount >= MaxTimingPasses ==>
        queryIndex.None? && frames == old(frames)
      ensures old(frames).Some? && old(frames).value[currentFrame].passCount < MaxTimingPasses ==>
        var f := old(frames).value[currentFrame];
        queryIndex == Some(2 * f.passCount) &&
        frames == Some(old(frames).value[currentFrame := TimingFrame(f.passNames + [name], f.passCount + 1)])
    {
      if frames.None? {
        return None;
      }
      var ring := frames.value;
      var frame := ring[currentFrame];
      if frame.passCount >= MaxTimingPasses {
        return None;
      }
      queryIndex := Some(frame.passCount * 2);
      frames := Some(ring[currentFrame := TimingFrame(frame.passNames + [name], frame.passCount + 1)]);
    }

    /// Number of queries the resolve step copies out of the current frame,
    /// or None when there is nothing to resolve.
    function ResolveQueryCount(): (count: Option<nat>)
      requires Valid()
      reads this
      ensures count.Some? <==> frames.Some? && frames.value[currentFrame].passCount > 0
      ensures count.Some? ==> count.value == 2 * frames.value[currentFrame].passCount <= QueriesPerFrame
    {
      if frames.None? then None
      else
        var frame := frames.value[currentFrame];
        if frame.passCount == 0 then None else Some(frame.passCount * 2)
    }

    /// Moves to the next ring frame and reads back the oldest one.
    /// `readback` is the mapped timestamp array, None when mapping failed.
    method AdvanceFrame(readback: Option<seq<nat>>)
      requires Valid()
      modifies this
      ensures Valid()
      ensures old(frames).None? ==>
        frames == old(frames) && currentFrame == old(currentFrame) && results == old(results)
      ensures old(frames).Some? ==>
        var cur := (old(currentFrame) + 1) % TimingRingSize;
        var back := (cur + 1) % TimingRingSize;
        var oldest := old(frames).value[back];
        currentFrame == cur &&
        frames == Some(old(frames).value[back := EmptyFrame]) &&
        results == if oldest.passCount > 0 && readback.Some?
                   then ResultsOf(oldest.passNames, readback.value)
                   else old(results)
    {
      if frames.None? {
        return;
      }
      var ring := frames.value;
      currentFrame := (currentFrame + 1) % TimingRingSize;
      var readbackIndex := (currentFrame + 1) % TimingRingSize;
      var readbackFrame := ring[readbackIndex];
      if readbackFrame.passCount == 0 {
        frames := Some(ring[readbackIndex := EmptyFrame]);
        return;
      }
      if readback.Some? {
        results := CollectResults(readbackFrame.passNames, readback.value);
        ResultsOfMeaning(readbackFrame.passNames, readback.value, results);
      }
      frames := Some(ring[readbackIndex := EmptyFrame]);
    }

    function Results(): seq<TimingResult>
      reads this
    {
      results
    }
  }

  /// The readback results as a value: one per pass while both timestamps exist.
  function ResultsOf(names: seq<string>, timestamps: seq<nat>): (rs: seq<TimingResult>)
    ensures |rs| == if |names| <= |timestamps| / 2 then |names| else |timestamps| / 2
  {
    if |names| == 0 || |timestamps| < 2 then []
    else [TimingResult(names[0], timestamps[0], timestamps[1])] + ResultsOf(names[1..], timestamps[2..])
  }

  /// Pass i of ResultsOf carries name i and timestamps 2i and 2i+1.
  lemma {:induction false} ResultsOfAt(names: seq<string>, timestamps: seq<nat>, i: nat)
    requires i < |ResultsOf(names, timestamps)|
    ensures ResultsOf(names, timestamps)[i] == TimingResult(names[i], timestamps[2 * i], timestamps[2 * i + 1])
  {
    if i > 0 {
      ResultsOfAt(names[1..], timestamps[2..], i - 1);
    }
  }

  /// Any list with CollectResults' contract is ResultsOf.
  lemma ResultsOfMeaning(names: seq<string>, timestamps: seq<nat>, rs: seq<TimingResult>)
    requires |rs| == if |names| <= |timestamps| / 2 then |names| else |timestamps| / 2
    requires forall i | 0 <= i < |rs| :: rs[i] == TimingResult(names[i], timestamps[2 * i], timestamps[2 * i + 1])
    ensures rs == ResultsOf(names, timestamps)
  {
    var expected := ResultsOf(names, timestamps);
    forall i | 0 <= i < |rs|
      ensures rs[i] == expected[i]
    {
      ResultsOfAt(names, timestamps, i);
    }
  }
}
