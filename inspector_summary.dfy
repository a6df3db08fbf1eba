// Summary statistics of a WebGPU Inspector recording. The regular
// expression scan over the recording's text is outside the model: each
// pattern's matches arrive as a list of captured groups, in text order.

module InspectorSummary {
  import opened Wrappers
  import opened Text
  import opened PyDict

  datatype DrawRecord =
    | DirectDraw(vertexCount: nat, instanceCount: nat, firstVertex: nat, firstInstance: nat)
    | IndirectDraw(offset: nat)

  datatype DispatchRecord = DispatchRecord(x: nat, y: nat, z: nat, totalWorkgroups: nat)
  datatype BufferRecord = BufferRecord(size: nat, name: string)
  datatype PipelineKind = ComputeKind | RenderKind
  datatype PipelineRecord = PipelineRecord(kind: PipelineKind, name: string)

  /// A per-frame rate, kept as the exact fraction numerator / denominator.
  datatype Ratio = Ratio(numerator: nat, denominator: nat)

  /// The summary dictionary: a key absent from it is None here.
  datatype Summary = Summary(
    drawCalls: Option<nat>,
    directDraws: Option<nat>,
    indirectDraws: Option<nat>,
    totalVerticesDrawn: Option<nat>,
    totalInstances: Option<nat>,
    drawsPerFrame: Option<Ratio>,
    instancesPerFrame: Option<Ratio>,
    dispatchCalls: Option<nat>,
    dispatchTypes: Option<Dict<string, int>>,
    dispatchesPerFrame: Option<Ratio>,
    bufferCount: Option<nat>,
    totalBufferMemory: Option<int>,
    buffers: Option<Dict<string, int>>)

  datatype Recording = Recording(
    draws: seq<DrawRecord>,
    dispatches: seq<DispatchRecord>,
    buffers: seq<BufferRecord>,
    pipelines: seq<PipelineRecord>,
    frameCount: nat,
    summary: Summary)

  //---------------------------------------------------------------------------
  // Parsing the matches.
  //---------------------------------------------------------------------------

  function Max(s: seq<nat>): (m: nat)
    requires |s| > 0
    ensures forall i | 0 <= i < |s| :: s[i] <= m
    ensures exists i | 0 <= i < |s| :: s[i] == m
  {
    if |s| == 1 then s[0]
    else
      var rest := Max(s[1..]);
      assert forall i | 1 <= i < |s| :: s[i] == s[1..][i - 1];
      if s[0] >= rest then s[0] else rest
  }

  /// One more than the highest frame index in the frame markers, or 0
  /// when the recording has none.
  function FrameCount(frameIndices: seq<nat>): (count: nat)
    ensures |frameIndices| == 0 ==> count == 0
    ensures |frameIndices| > 0 ==>
      (forall i | 0 <= i < |frameIndices| :: frameIndices[i] < count) &&
      (exists i | 0 <= i < |frameIndices| :: frameIndices[i] + 1 == count)
  {
    if |frameIndices| == 0 then 0 else Max(frameIndices) + 1
  }

  /// Direct draws in text order, then indirect ones.
  method ParseDraws(directMatches: seq<(nat, nat, nat, nat)>, indirectOffsets: seq<nat>)
    returns (draws: seq<DrawRecord>)
    ensures |draws| == |directMatches| + |indirectOffsets|
    ensures forall i | 0 <= i < |directMatches| ::
      var m := directMatches[i]; draws[i] == DirectDraw(m.0, m.1, m.2, m.3)
    ensures forall i | 0 <= i < |indirectOffsets| ::
      draws[|directMatches| + i] == IndirectDraw(indirectOffsets[i])
  {
    draws := [];
    for i := 0 to |directMatches|
      invariant |draws| == i
      invariant forall j | 0 <= j < i :: var m := directMatches[j]; draws[j] == DirectDraw(m.0, m.1, m.2, m.3)
    {
      var m := directMatches[i];
      draws := draws + [DirectDraw(m.0, m.1, m.2, m.3)];
    }
    for i := 0 to |indirectOffsets|
      invariant |draws| == |directMatches| + i
      invariant forall j | 0 <= j < |directMatches| ::
        var m := directMatches[j]; draws[j] == DirectDraw(m.0, m.1, m.2, m.3)
      invariant forall j | 0 <= j < i :: draws[|directMatches| + j] == IndirectDraw(indirectOffsets[j])
    {
      draws := draws + [IndirectDraw(indirectOffsets[i])];
    }
  }

  /// Every dispatch record carries its workgroup total x * y * z.
  method ParseDispatches(matches: seq<(nat, nat, nat)>) returns (dispatches: seq<DispatchRecord>)
    ensures |dispatches| == |matches|
    ensures forall i | 0 <= i < |dispatches| ::
      && dispatches[i].x == matches[i].0 && dispatches[i].y == matches[i].1 && dispatches[i].z == matches[i].2
      && dispatches[i].totalWorkgroups == dispatches[i].x * dispatches[i].y * dispatches[i].z
  {
    dispatches := [];
    for i := 0 to |matches|
      invariant |dispatches| == i
      invariant forall j | 0 <= j < i ::
        && dispatches[j].x == matches[j].0 && dispatches[j].y == matches[j].1 && dispatches[j].z == matches[j].2
        && dispatches[j].totalWorkgroups == dispatches[j].x * dispatches[j].y * dispatches[j].z
    {
      var (x, y, z) := matches[i];
      dispatches := dispatches + [DispatchRecord(x, y, z, x * y * z)];
    }
  }

  /// Buffers whose size precedes their label come first, then those whose
  /// label comes first; both in text order.
  method ParseBuffers(sizeFirst: seq<(nat, string)>, labelFirst: seq<(string, nat)>)
    returns (buffers: seq<BufferRecord>)
    ensures |buffers| == |sizeFirst| + |labelFirst|
    ensures forall i | 0 <= i < |sizeFirst| :: buffers[i] == BufferRecord(sizeFirst[i].0, sizeFirst[i].1)
    ensures forall i | 0 <= i < |labelFirst| ::
      buffers[|sizeFirst| + i] == BufferRecord(labelFirst[i].1, labelFirst[i].0)
  {
    buffers := [];
    for i := 0 to |sizeFirst|
      invariant |buffers| == i
      invariant forall j | 0 <= j < i :: buffers[j] == BufferRecord(sizeFirst[j].0, sizeFirst[j].1)
    {
      buffers := buffers + [BufferRecord(sizeFirst[i].0, sizeFirst[i].1)];
    }
    for i := 0 to |labelFirst|
      invariant |buffers| == |sizeFirst| + i
      invariant forall j | 0 <= j < |sizeFirst| :: buffers[j] == BufferRecord(sizeFirst[j].0, sizeFirst[j].1)
      invariant forall j | 0 <= j < i :: buffers[|sizeFirst| + j] == BufferRecord(labelFirst[j].1, labelFirst[j].0)
    {
      buffers := buffers + [BufferRecord(labelFirst[i].1, labelFirst[i].0)];
    }
  }

  /// The whole parse: the record lists, the frame count and their summary.
  method ParseRecording(
    frameIndices: seq<nat>,
    directMatches: seq<(nat, nat, nat, nat)>, indirectOffsets: seq<nat>,
    dispatchMatches: seq<(nat, nat, nat)>,
    sizeFirst: seq<(nat, string)>, labelFirst: seq<(string, nat)>,
    pipelines: seq<PipelineRecord>)
    returns (recording: Recording)
    ensures recording.frameCount == FrameCount(frameIndices)
    ensures |recording.draws| == |directMatches| + |indirectOffsets|
    ensures |recording.dispatches| == |dispatchMatches|
    ensures |recording.buffers| == |sizeFirst| + |labelFirst|
    ensures recording.pipelines == pipelines
    ensures recording.summary == SummaryOf(recording.draws, recording.dispatches, recording.buffers, recording.frameCount)
  {
    var draws := ParseDraws(directMatches, indirectOffsets);
    var dispatches := ParseDispatches(dispatchMatches);
    var buffers := ParseBuffers(sizeFirst, labelFirst);
    var frameCount := FrameCount(frameIndices);
    var summary := ComputeSummary(draws, dispatches, buffers, frameCount);
    recording := Recording(draws, dispatches, buffers, pipelines, frameCount, summary);
  }

  //---------------------------------------------------------------------------
  // The summary, as functions of the record lists.
  //---------------------------------------------------------------------------

  /// `[d for d in draws if 'type' not in d]`: exactly the direct draws.
  function DirectDraws(draws: seq<DrawRecord>): (r: seq<DrawRecord>)
    ensures forall d | d in r :: d.DirectDraw? && d in draws
    ensures forall d | d in draws && d.DirectDraw? :: d in r
  {
    if |draws| == 0 then []
    else (if draws[0].DirectDraw? then [draws[0]] else []) + DirectDraws(draws[1..])
  }

  /// `[d for d in draws if d.get('type') == 'indirect']`: exactly the
  /// indirect draws.
  function IndirectDraws(draws: seq<DrawRecord>): (r: seq<DrawRecord>)
    ensures forall d | d in r :: d.IndirectDraw? && d in draws
    ensures forall d | d in draws && d.IndirectDraw? :: d in r
  {
    if |draws| == 0 then []
    else (if draws[0].IndirectDraw? then [draws[0]] else []) + IndirectDraws(draws[1..])
  }

  /// Both filters keep the order of the recording: filtering a
  /// concatenation concatenates the filtered parts, so each kept draw keeps
  /// its place relative to the others.
  lemma {:induction false} DrawFiltersOrdered(a: seq<DrawRecord>, b: seq<DrawRecord>)
    ensures DirectDraws(a + b) == DirectDraws(a) + DirectDraws(b)
    ensures IndirectDraws(a + b) == IndirectDraws(a) + IndirectDraws(b)
  {
    DirectDrawsConcat(a, b);
    IndirectDrawsConcat(a, b);
  }

  lemma {:induction false} DirectDrawsConcat(a: seq<DrawRecord>, b: seq<DrawRecord>)
    ensures DirectDraws(a + b) == DirectDraws(a) + DirectDraws(b)
  {
    if |a| == 0 {
      assert a + b == b;
    } else {
      assert (a + b)[0] == a[0];
      assert (a + b)[1..] == a[1..] + b;
      DirectDrawsConcat(a[1..], b);
      var head := if a[0].DirectDraw? then [a[0]] else [];
      calc {
        DirectDraws(a + b);
        head + DirectDraws(a[1..] + b);
        head + (DirectDraws(a[1..]) + DirectDraws(b));
        { assert head + (DirectDraws(a[1..]) + DirectDraws(b)) == (head + DirectDraws(a[1..])) + DirectDraws(b); }
        (head + DirectDraws(a[1..])) + DirectDraws(b);
        DirectDraws(a) + DirectDraws(b);
      }
    }
  }

  lemma {:induction false} IndirectDrawsConcat(a: seq<DrawRecord>, b: seq<DrawRecord>)
    ensures IndirectDraws(a + b) == IndirectDraws(a) + IndirectDraws(b)
  {
    if |a| == 0 {
      assert a + b == b;
    } else {
      assert (a + b)[0] == a[0];
      assert (a + b)[1..] == a[1..] + b;
      IndirectDrawsConcat(a[1..], b);
      var head := if a[0].IndirectDraw? then [a[0]] else [];
      calc {
        IndirectDraws(a + b);
        head + IndirectDraws(a[1..] + b);
        head + (IndirectDraws(a[1..]) + IndirectDraws(b));
        { assert head + (IndirectDraws(a[1..]) + IndirectDraws(b)) == (head + IndirectDraws(a[1..])) + IndirectDraws(b); }
        (head + IndirectDraws(a[1..])) + IndirectDraws(b);
        IndirectDraws(a) + IndirectDraws(b);
      }
    }
  }

  /// Filtering a filtered list changes nothing.
  lemma {:induction false} DrawFiltersIdempotent(draws: seq<DrawRecord>)
    ensures DirectDraws(DirectDraws(draws)) == DirectDraws(draws)
    ensures IndirectDraws(IndirectDraws(draws)) == IndirectDraws(draws)
  {
    if |draws| > 0 {
      DrawFiltersIdempotent(draws[1..]);
      var head := if draws[0].DirectDraw? then [draws[0]] else [];
      DrawFiltersOrdered(head, DirectDraws(draws[1..]));
      var ihead := if draws[0].IndirectDraw? then [draws[0]] else [];
      DrawFiltersOrdered(ihead, IndirectDraws(draws[1..]));
    }
  }

  /// Every draw is direct or indirect: the two counts add up to all draws.
  lemma {:induction false} DrawSplit(draws: seq<DrawRecord>)
    ensures |DirectDraws(draws)| + |IndirectDraws(draws)| == |draws|
  {
    if |draws| > 0 {
      DrawSplit(draws[1..]);
    }
  }

  /// Vertices times instances, summed over direct draws.
  function TotalVertices(draws: seq<DrawRecord>): nat
  {
    if |draws| == 0 then 0
    else (if draws[0].DirectDraw? then draws[0].vertexCount * draws[0].instanceCount else 0) + TotalVertices(draws[1..])
  }

  function TotalInstances(draws: seq<DrawRecord>): nat
  {
    if |draws| == 0 then 0
    else (if draws[0].DirectDraw? then draws[0].instanceCount else 0) + TotalInstances(draws[1..])
  }

  /// Without direct draws nothing is drawn.
  lemma {:induction false} NoDirectDrawsNoVertices(draws: seq<DrawRecord>)
    requires |DirectDraws(draws)| == 0
    ensures TotalVertices(draws) == 0 && TotalInstances(draws) == 0
  {
    if |draws| > 0 {
      NoDirectDrawsNoVertices(draws[1..]);
    }
  }

  function DispatchKey(d: DispatchRecord): string
  {
    NatToString(d.x) + "x" + NatToString(d.y) + "x" + NatToString(d.z)
  }

  /// The dispatch-shape histogram after counting `dispatches` in order.
  function DispatchTypesOf(dispatches: seq<DispatchRecord>): Dict<string, int>
  {
    if |dispatches| == 0 then []
    else Add(DispatchTypesOf(dispatches[..|dispatches| - 1]), DispatchKey(dispatches[|dispatches| - 1]), 1)
  }

  /// The histogram's counts add up to the number of dispatches.
  lemma {:induction false} DispatchTypesTotal(dispatches: seq<DispatchRecord>)
    ensures Sum(DispatchTypesOf(dispatches)) == |dispatches|
  {
    if |dispatches| > 0 {
      var prefix := dispatches[..|dispatches| - 1];
      var key := DispatchKey(dispatches[|dispatches| - 1]);
      DispatchTypesTotal(prefix);
      SumSet(DispatchTypesOf(prefix), key, Get(DispatchTypesOf(prefix), key, 0) + 1);
    }
  }

  /// Label -> size of the buffers seen so far, the first size per label kept.
  function UniqueBuffersOf(buffers: seq<BufferRecord>): Dict<string, int>
  {
    if |buffers| == 0 then []
    else
      var seen := UniqueBuffersOf(buffers[..|buffers| - 1]);
      var b := buffers[|buffers| - 1];
      if b.name !in Keys(seen) then Set(seen, b.name, b.size) else seen
  }

  function LabelsOf(buffers: seq<BufferRecord>): set<string>
  {
    set i | 0 <= i < |buffers| :: buffers[i].name
  }

  /// One entry per distinct label.
  lemma {:induction false} UniqueBuffersKeys(buffers: seq<BufferRecord>)
    ensures Keys(UniqueBuffersOf(buffers)) == LabelsOf(buffers)
    ensures DistinctKeys(UniqueBuffersOf(buffers))
  {
    if |buffers| > 0 {
      var prefix := buffers[..|buffers| - 1];
      var b := buffers[|buffers| - 1];
      UniqueBuffersKeys(prefix);
      assert LabelsOf(buffers) == LabelsOf(prefix) + {b.name} by {
        forall l | l in LabelsOf(buffers) ensures l in LabelsOf(prefix) + {b.name} {
          var i :| 0 <= i < |buffers| && buffers[i].name == l;
          if i < |buffers| - 1 { assert prefix[i] == buffers[i]; }
        }
        forall l | l in LabelsOf(prefix) ensures l in LabelsOf(buffers) {
          var i :| 0 <= i < |prefix| && prefix[i].name == l;
          assert buffers[i] == prefix[i];
        }
      }
      if b.name !in Keys(UniqueBuffersOf(prefix)) {
        KeysSet(UniqueBuffersOf(prefix), b.name, b.size);
        DistinctSet(UniqueBuffersOf(prefix), b.name, b.size);
      }
    }
  }

  /// The size kept for a label is the size of its first buffer.
  lemma {:induction false} UniqueBuffersFirstWins(buffers: seq<BufferRecord>, i: nat)
    requires i < |buffers|
    requires forall j | 0 <= j < i :: buffers[j].name != buffers[i].name
    ensures Get(UniqueBuffersOf(buffers), buffers[i].name, 0) == buffers[i].size
  {
    var prefix := buffers[..|buffers| - 1];
    var b := buffers[|buffers| - 1];
    var l := buffers[i].name;
    UniqueBuffersKeys(prefix);
    if i < |buffers| - 1 {
      assert prefix[i] == buffers[i];
      UniqueBuffersFirstWins(prefix, i);
      assert l in LabelsOf(prefix);
      if b.name !in Keys(UniqueBuffersOf(prefix)) {
        GetSet(UniqueBuffersOf(prefix), b.name, b.size, l, 0);
      }
    } else {
      assert l !in LabelsOf(prefix) by {
        forall j | 0 <= j < |prefix| ensures prefix[j].name != l {
          assert prefix[j] == buffers[j];
        }
      }
      GetSet(UniqueBuffersOf(prefix), l, b.size, l, 0);
    }
  }

  lemma {:induction false} DistinctKeysCount<K, V>(d: Dict<K, V>)
    requires DistinctKeys(d)
    ensures |Keys(d)| == |d|
  {
    if |d| > 0 {
      DistinctKeysCount(d[1..]);
      assert d[0].0 !in Keys(d[1..]);
      assert Keys(d) == {d[0].0} + Keys(d[1..]);
    }
  }

  /// The number of buffers the summary reports is the number of distinct labels.
  lemma UniqueBuffersCount(buffers: seq<BufferRecord>)
    ensures |UniqueBuffersOf(buffers)| == |LabelsOf(buffers)|
  {
    UniqueBuffersKeys(buffers);
    DistinctKeysCount(UniqueBuffersOf(buffers));
  }

  function PerFrame(count: nat, frameCount: nat): Option<Ratio>
  {
    if frameCount > 0 then Some(Ratio(count, frameCount)) else None
  }

  /// The summary as a function of the parsed records.
  function SummaryOf(draws: seq<DrawRecord>, dispatches: seq<DispatchRecord>, buffers: seq<BufferRecord>,
                     frameCount: nat): (s: Summary)
    ensures s.drawCalls.Some? <==> |draws| > 0
    ensures s.drawCalls.Some? ==>
      s.drawCalls.value == |draws| && s.directDraws.Some? && s.indirectDraws.Some? &&
      s.directDraws.value + s.indirectDraws.value == s.drawCalls.value
    ensures s.totalVerticesDrawn.Some? <==> |DirectDraws(draws)| > 0
    ensures s.totalInstances.Some? <==> |DirectDraws(draws)| > 0
    ensures s.drawsPerFrame.Some? <==> |DirectDraws(draws)| > 0 && frameCount > 0
    ensures s.instancesPerFrame.Some? <==> |DirectDraws(draws)| > 0 && frameCount > 0
    ensures s.drawsPerFrame.Some? ==> s.drawsPerFrame.value == Ratio(|DirectDraws(draws)|, frameCount)
    ensures s.dispatchCalls.Some? <==> |dispatches| > 0
    ensures s.dispatchTypes.Some? <==> |dispatches| > 0
    ensures s.dispatchTypes.Some? ==> Sum(s.dispatchTypes.value) == s.dispatchCalls.value == |dispatches|
    ensures s.dispatchesPerFrame.Some? <==> |dispatches| > 0 && frameCount > 0
    ensures s.bufferCount.Some? <==> |buffers| > 0
    ensures s.bufferCount.Some? ==> s.bufferCount.value == |LabelsOf(buffers)|
    ensures s.buffers.Some? ==> DistinctKeys(s.buffers.value) && Keys(s.buffers.value) == LabelsOf(buffers)
    ensures s.totalBufferMemory.Some? ==> s.buffers.Some? && s.totalBufferMemory.value == Sum(s.buffers.value)
  {
    DrawSplit(draws);
    DispatchTypesTotal(dispatches);
    UniqueBuffersKeys(buffers);
    UniqueBuffersCount(buffers);
    var direct := DirectDraws(draws);
    var drawsPart := |draws| > 0;
    var directPart := drawsPart && |direct| > 0;
    var unique := UniqueBuffersOf(buffers);
    Summary(
      if drawsPart then Some(|draws|) else None,
      if drawsPart then Some(|direct|) else None,
      if drawsPart then Some(|IndirectDraws(draws)|) else None,
      if directPart then Some(TotalVertices(draws)) else None,
      if directPart then Some(TotalInstances(draws)) else None,
      if directPart then PerFrame(|direct|, frameCount) else None,
      if directPart then PerFrame(TotalInstances(draws), frameCount) else None,
      if |dispatches| > 0 then Some(|dispatches|) else None,
      if |dispatches| > 0 then Some(DispatchTypesOf(dispatches)) else None,
      if |dispatches| > 0 then PerFrame(|dispatches|, frameCount) else None,
      if |buffers| > 0 then Some(|unique|) else None,
      if |buffers| > 0 then Some(Sum(unique)) else None,
      if |buffers| > 0 then Some(unique) else None)
  }

  /// The dispatch histogram loop: one count per workgroup-size key, in
  /// first-seen order.
  method CountDispatchTypes(dispatches: seq<DispatchRecord>) returns (dispatchTypes: Dict<string, int>)
    ensures dispatchTypes == DispatchTypesOf(dispatches)
  {
    dispatchTypes := [];
    for i := 0 to |dispatches|
      invariant dispatchTypes == DispatchTypesOf(dispatches[..i])
    {
      assert dispatches[..i + 1][..i] == dispatches[..i];
      var key := DispatchKey(dispatches[i]);
      dispatchTypes := Set(dispatchTypes, key, Get(dispatchTypes, key, 0) + 1);
    }
    assert dispatches[..|dispatches|] == dispatches;
  }

  /// The buffer de-duplication loop: the first size seen under each name.
  method DedupBuffers(buffers: seq<BufferRecord>) returns (uniqueBuffers: Dict<string, int>)
    ensures uniqueBuffers == UniqueBuffersOf(buffers)
  {
    uniqueBuffers := [];
    for i := 0 to |buffers|
      invariant uniqueBuffers == UniqueBuffersOf(buffers[..i])
    {
      assert buffers[..i + 1][..i] == buffers[..i];
      var b := buffers[i];
      if b.name !in Keys(uniqueBuffers) {
        uniqueBuffers := Set(uniqueBuffers, b.name, b.size);
      }
    }
    assert buffers[..|buffers|] == buffers;
  }

  /// Fills the histogram and the de-duplicated buffer table in loops, as
  /// the script does, and agrees with SummaryOf.
  method ComputeSummary(draws: seq<DrawRecord>, dispatches: seq<DispatchRecord>, buffers: seq<BufferRecord>,
                        frameCount: nat)
    returns (summary: Summary)
    ensures summary == SummaryOf(draws, dispatches, buffers, frameCount)
  {
    var dispatchTypes := CountDispatchTypes(dispatches);
    var uniqueBuffers := DedupBuffers(buffers);

    var direct := DirectDraws(draws);
    var drawsPart := |draws| > 0;
    var directPart := drawsPart && |direct| > 0;
    summary := Summary(
      if drawsPart then Some(|draws|) else None,
      if drawsPart then Some(|direct|) else None,
      if drawsPart then Some(|IndirectDraws(draws)|) else None,
      if directPart then Some(TotalVertices(draws)) else None,
      if directPart then Some(TotalInstances(draws)) else None,
      if directPart then PerFrame(|direct|, frameCount) else None,
      if directPart then PerFrame(TotalInstances(draws), frameCount) else None,
      if |dispatches| > 0 then Some(|dispatches|) else None,
      if |dispatches| > 0 then Some(dispatchTypes) else None,
      if |dispatches| > 0 then PerFrame(|dispatches|, frameCount) else None,
      if |buffers| > 0 then Some(|uniqueBuffers|) else None,
      if |buffers| > 0 then Some(Sum(uniqueBuffers)) else None,
      if |buffers| > 0 then Some(uniqueBuffers) else None);
  }
}
