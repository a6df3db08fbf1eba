/** Model of scripts/analyze-trace.py: rebuilding call stacks from the
    parent links of a CPU-profile node table, aggregating self/total counts
    and times per function, the parent -> child call table, the bottleneck
    classification and the two small formatting helpers. */
module TraceAnalyzer {
  import opened Wrappers
  import opened Text
  import opened PyDict

  /** `nodes[id]`: the function name and the (possibly absent) parent id. */
  datatype Node = Node(functionName: string, parent: Option<int>)

  type NodeTable = map<int, Node>

  /** A stack entry `(node id, function name)`. */
  type Frame = (int, string)

  /** Python truthiness of the walk cursor: `None` and `0` are falsy. */
  predicate Truthy(current: Option<int>)
  {
    current.Some? && current.value != 0
  }

  /** The stack the walk produces from `current` once `visited` holds the ids
      already seen: leaf first, following parent links. */
  function StackFrom(nodes: NodeTable, current: Option<int>, visited: set<int>): seq<Frame>
    decreases nodes.Keys - visited
  {
    if !Truthy(current) || current.value in visited || current.value !in nodes then []
    else
      var id := current.value;
      [(id, nodes[id].functionName)] + StackFrom(nodes, nodes[id].parent, visited + {id})
  }

  function FullStack(nodes: NodeTable, nodeId: int): seq<Frame>
  {
    StackFrom(nodes, Some(nodeId), {})
  }

  /** `get_full_stack`: walk parent links, stopping at a falsy id, a revisited
      id or an id missing from the table. */
  method GetFullStack(nodes: NodeTable, nodeId: int) returns (stack: seq<Frame>)
    ensures stack == FullStack(nodes, nodeId)
  {
    stack := [];
    var current: Option<int> := Some(nodeId);
    var visited: set<int> := {};
    while Truthy(current) && current.value !in visited
      invariant stack + StackFrom(nodes, current, visited) == FullStack(nodes, nodeId)
      decreases nodes.Keys - visited
    {
      var id := current.value;
      if id in nodes {
        stack := stack + [(id, nodes[id].functionName)];
        current := nodes[id].parent;
        visited := visited + {id};
      } else {
        break;
      }
    }
  }

  /** Every entry is a table entry with a truthy id outside `visited`, named
      after its node. */
  predicate EntriesFresh(nodes: NodeTable, visited: set<int>, s: seq<Frame>)
  {
    forall i :: 0 <= i < |s| ==>
      s[i].0 in nodes && s[i].0 !in visited && s[i].0 != 0 && s[i].1 == nodes[s[i].0].functionName
  }

  lemma {:induction false} StackFromEntries(nodes: NodeTable, current: Option<int>, visited: set<int>)
    ensures EntriesFresh(nodes, visited, StackFrom(nodes, current, visited))
    decreases nodes.Keys - visited
  {
    if Truthy(current) && current.value !in visited && current.value in nodes {
      var id := current.value;
      var rest := StackFrom(nodes, nodes[id].parent, visited + {id});
      StackFromEntries(nodes, nodes[id].parent, visited + {id});
      var s := StackFrom(nodes, current, visited);
      assert s == [(id, nodes[id].functionName)] + rest;
      forall i | 0 <= i < |s|
        ensures s[i].0 in nodes && s[i].0 !in visited && s[i].0 != 0 && s[i].1 == nodes[s[i].0].functionName
      {
        if i > 0 {
          assert s[i] == rest[i - 1];
        }
      }
    }
  }

  predicate DistinctIds(s: seq<Frame>)
  {
    forall i, j :: 0 <= i < j < |s| ==> s[i].0 != s[j].0
  }

  /** The walk never repeats a node id. */
  lemma {:induction false} StackFromDistinct(nodes: NodeTable, current: Option<int>, visited: set<int>)
    ensures DistinctIds(StackFrom(nodes, current, visited))
    decreases nodes.Keys - visited
  {
    if Truthy(current) && current.value !in visited && current.value in nodes {
      var id := current.value;
      var rest := StackFrom(nodes, nodes[id].parent, visited + {id});
      StackFromDistinct(nodes, nodes[id].parent, visited + {id});
      StackFromEntries(nodes, nodes[id].parent, visited + {id});
      var s := StackFrom(nodes, current, visited);
      assert s == [(id, nodes[id].functionName)] + rest;
      forall i, j | 0 <= i < j < |s| ensures s[i].0 != s[j].0 {
        if i > 0 {
          assert s[i] == rest[i - 1] && s[j] == rest[j - 1];
        } else {
          assert s[j] == rest[j - 1];
        }
      }
    }
  }

  /** The walk is no longer than the number of unvisited table ids. */
  lemma {:induction false} StackFromLength(nodes: NodeTable, current: Option<int>, visited: set<int>)
    ensures |StackFrom(nodes, current, visited)| <= |nodes.Keys - visited|
    decreases nodes.Keys - visited
  {
    if Truthy(current) && current.value !in visited && current.value in nodes {
      var id := current.value;
      StackFromLength(nodes, nodes[id].parent, visited + {id});
      assert nodes.Keys - (visited + {id}) == (nodes.Keys - visited) - {id};
      assert (nodes.Keys - visited) - {id} + {id} == nodes.Keys - visited;
    }
  }

  /** The walk starts at `current` when that is a truthy, unvisited table id
      (and is empty otherwise), and each entry is the parent of the one
      before it. */
  lemma {:induction false} StackFromLinks(nodes: NodeTable, current: Option<int>, visited: set<int>)
    ensures var s := StackFrom(nodes, current, visited);
      && (s != [] <==> Truthy(current) && current.value !in visited && current.value in nodes)
      && (s != [] ==> s[0].0 == current.value)
      && (forall i :: 0 <= i < |s| - 1 ==> s[i].0 in nodes && nodes[s[i].0].parent == Some(s[i + 1].0))
    decreases nodes.Keys - visited
  {
    if Truthy(current) && current.value !in visited && current.value in nodes {
      var id := current.value;
      var rest := StackFrom(nodes, nodes[id].parent, visited + {id});
      StackFromLinks(nodes, nodes[id].parent, visited + {id});
      var s := StackFrom(nodes, current, visited);
      assert s == [(id, nodes[id].functionName)] + rest;
      forall i | 0 <= i < |s| - 1 ensures s[i].0 in nodes && nodes[s[i].0].parent == Some(s[i + 1].0) {
        if i > 0 {
          assert s[i] == rest[i - 1] && s[i + 1] == rest[i];
        }
      }
    }
  }

  /** The statement for the walk from a sample's node id: distinct ids, no
      longer than the table, starting at the start node, following parent
      links; id 0 and ids missing from the table give the empty stack. */
  lemma FullStackShape(nodes: NodeTable, nodeId: int)
    ensures var s := FullStack(nodes, nodeId);
      && |s| <= |nodes.Keys|
      && (forall i, j :: 0 <= i < j < |s| ==> s[i].0 != s[j].0)
      && (s != [] <==> nodeId != 0 && nodeId in nodes)
      && (s != [] ==> s[0] == (nodeId, nodes[nodeId].functionName))
      && (forall i :: 0 <= i < |s| - 1 ==> s[i].0 in nodes && nodes[s[i].0].parent == Some(s[i + 1].0))
  {
    StackFromLength(nodes, Some(nodeId), {});
    StackFromDistinct(nodes, Some(nodeId), {});
    StackFromLinks(nodes, Some(nodeId), {});
    StackFromEntries(nodes, Some(nodeId), {});
    assert nodes.Keys - {} == nodes.Keys;
  }

  /** The five dictionaries `analyze_samples` returns; `callTree[parent][child]`. */
  datatype Analysis = Analysis(
    selfSamples: Dict<string, int>,
    selfTime: Dict<string, int>,
    totalSamples: Dict<string, int>,
    totalTime: Dict<string, int>,
    callTree: Dict<string, Dict<string, int>>)

  /** `time_deltas[i] if i < len(time_deltas) else 0`. */
  function Delta(timeDeltas: seq<int>, i: nat): int
  {
    if i < |timeDeltas| then timeDeltas[i] else 0
  }

  /** `call_tree[parent][child] += 1` on the nested defaultdict. */
  function AddEdge(tree: Dict<string, Dict<string, int>>, parent: string, child: string): Dict<string, Dict<string, int>>
  {
    Set(tree, parent, Add(Get(tree, parent, []), child, 1))
  }

  /** `call_tree[parent][child]`, 0 when absent. */
  function EdgeCount(tree: Dict<string, Dict<string, int>>, parent: string, child: string): int
  {
    Get(Get(tree, parent, []), child, 0)
  }

  /** The inner loop of `analyze_samples` from stack position `j` on, with the
      names already credited in this sample in `seen`. */
  function CreditFrom(a: Analysis, stack: seq<Frame>, j: nat, seen: set<string>, delta: int): Analysis
    requires j <= |stack|
    decreases |stack| - j
  {
    if j == |stack| then a
    else
      var name := stack[j].1;
      var a1 := if name !in seen
        then a.(totalSamples := Add(a.totalSamples, name, 1), totalTime := Add(a.totalTime, name, delta))
        else a;
      var a2 := if j + 1 < |stack| then a1.(callTree := AddEdge(a1.callTree, stack[j + 1].1, name)) else a1;
      CreditFrom(a2, stack, j + 1, seen + {name}, delta)
  }

  /** One iteration of the sample loop: nothing for an empty stack; otherwise
      the leaf's self statistics, then the inner loop. */
  function CreditSample(a: Analysis, stack: seq<Frame>, delta: int): Analysis
  {
    if stack == [] then a
    else
      var leaf := stack[0].1;
      CreditFrom(a.(selfSamples := Add(a.selfSamples, leaf, 1), selfTime := Add(a.selfTime, leaf, delta)),
                 stack, 0, {}, delta)
  }

  /** The analysis of the first `n` samples, given their stacks. */
  function AnalyzeStacks(stacks: seq<seq<Frame>>, timeDeltas: seq<int>, n: nat): Analysis
    requires n <= |stacks|
  {
    if n == 0 then Analysis([], [], [], [], [])
    else CreditSample(AnalyzeStacks(stacks, timeDeltas, n - 1), stacks[n - 1], Delta(timeDeltas, n - 1))
  }

  function StacksOf(nodes: NodeTable, samples: seq<int>): (stacks: seq<seq<Frame>>)
    ensures |stacks| == |samples|
  {
    seq(|samples|, i requires 0 <= i < |samples| => FullStack(nodes, samples[i]))
  }

  /** `analyze_samples`; the five defaultdicts are the fields of `a`. */
  method AnalyzeSamples(nodes: NodeTable, samples: seq<int>, timeDeltas: seq<int>) returns (a: Analysis)
    ensures a == AnalyzeStacks(StacksOf(nodes, samples), timeDeltas, |samples|)
  {
    ghost var stacks := StacksOf(nodes, samples);
    a := Analysis([], [], [], [], []);
    var i := 0;
    while i < |samples|
      invariant 0 <= i <= |samples|
      invariant a == AnalyzeStacks(stacks, timeDeltas, i)
    {
      var delta := if i < |timeDeltas| then timeDeltas[i] else 0;
      var stack := GetFullStack(nodes, samples[i]);
      assert stack == stacks[i];
      if stack != [] {
        var leafName := stack[0].1;
        a := a.(selfSamples := Add(a.selfSamples, leafName, 1), selfTime := Add(a.selfTime, leafName, delta));
        a := CreditEntries(a, stack, delta);
      }
      i := i + 1;
    }
  }

  /** The inner loop of `analyze_samples` over one stack. */
  method CreditEntries(a0: Analysis, stack: seq<Frame>, delta: int) returns (a: Analysis)
    ensures a == CreditFrom(a0, stack, 0, {}, delta)
  {
    a := a0;
    var seen: set<string> := {};
    var j := 0;
    while j < |stack|
      invariant 0 <= j <= |stack|
      invariant CreditFrom(a, stack, j, seen, delta) == CreditFrom(a0, stack, 0, {}, delta)
    {
      var name := stack[j].1;
      if name !in seen {
        seen := seen + {name};
        a := a.(totalSamples := Add(a.totalSamples, name, 1), totalTime := Add(a.totalTime, name, delta));
      } else {
        assert seen + {name} == seen;
      }
      if j + 1 < |stack| {
        var parentName := stack[j + 1].1;
        a := a.(callTree := AddEdge(a.callTree, parentName, name));
      }
      j := j + 1;
    }
  }

  // ---------------------------------------------------------------------
  // What the aggregates mean: independent per-function counts over samples.

  /** The function names occurring in `stack` at position `j` or later. */
  function NamesFrom(stack: seq<Frame>, j: nat): set<string>
    requires j <= |stack|
  {
    set k | j <= k < |stack| :: stack[k].1
  }

  /** Adjacent pairs at positions k >= j with `stack[k+1]` named `parent`
      and `stack[k]` named `child`. */
  function PairsFrom(stack: seq<Frame>, j: nat, parent: string, child: string): nat
    requires j <= |stack|
    decreases |stack| - j
  {
    if j + 1 >= |stack| then 0
    else (if stack[j + 1].1 == parent && stack[j].1 == child then 1 else 0) + PairsFrom(stack, j + 1, parent, child)
  }

  predicate LeafIs(stack: seq<Frame>, f: string)
  {
    stack != [] && stack[0].1 == f
  }

  /** Samples among the first n whose leaf is `f`. */
  function LeafCount(stacks: seq<seq<Frame>>, n: nat, f: string): nat
    requires n <= |stacks|
  {
    if n == 0 then 0 else LeafCount(stacks, n - 1, f) + (if LeafIs(stacks[n - 1], f) then 1 else 0)
  }

  function LeafTime(stacks: seq<seq<Frame>>, timeDeltas: seq<int>, n: nat, f: string): int
    requires n <= |stacks|
  {
    if n == 0 then 0
    else LeafTime(stacks, timeDeltas, n - 1, f) + (if LeafIs(stacks[n - 1], f) then Delta(timeDeltas, n - 1) else 0)
  }

  /** Samples among the first n whose stack mentions `f` at all. */
  function ContainCount(stacks: seq<seq<Frame>>, n: nat, f: string): nat
    requires n <= |stacks|
  {
    if n == 0 then 0 else ContainCount(stacks, n - 1, f) + (if f in NamesFrom(stacks[n - 1], 0) then 1 else 0)
  }

  function ContainTime(stacks: seq<seq<Frame>>, timeDeltas: seq<int>, n: nat, f: string): int
    requires n <= |stacks|
  {
    if n == 0 then 0
    else ContainTime(stacks, timeDeltas, n - 1, f) + (if f in NamesFrom(stacks[n - 1], 0) then Delta(timeDeltas, n - 1) else 0)
  }

  function PairTotal(stacks: seq<seq<Frame>>, n: nat, parent: string, child: string): nat
    requires n <= |stacks|
  {
    if n == 0 then 0 else PairTotal(stacks, n - 1, parent, child) + PairsFrom(stacks[n - 1], 0, parent, child)
  }

  function NonEmptyCount(stacks: seq<seq<Frame>>, n: nat): nat
    requires n <= |stacks|
  {
    if n == 0 then 0 else NonEmptyCount(stacks, n - 1) + (if stacks[n - 1] != [] then 1 else 0)
  }

  lemma GetAdd(d: Dict<string, int>, k: string, delta: int, f: string)
    ensures Get(Add(d, k, delta), f, 0) == Get(d, f, 0) + (if k == f then delta else 0)
  {
    GetSet(d, k, Get(d, k, 0) + delta, f, 0);
  }

  lemma EdgeCountAddEdge(tree: Dict<string, Dict<string, int>>, p: string, c: string, p': string, c': string)
    ensures EdgeCount(AddEdge(tree, p, c), p', c') == EdgeCount(tree, p', c') + (if p == p' && c == c' then 1 else 0)
  {
    GetSet(tree, p, Add(Get(tree, p, []), c, 1), p', []);
    GetAdd(Get(tree, p, []), c, 1, c');
  }

  /** The effect of the inner loop on every statistic. */
  lemma {:induction false} CreditFromEffect(a: Analysis, stack: seq<Frame>, j: nat, seen: set<string>, delta: int,
                                            f: string, p: string, c: string)
    requires j <= |stack|
    ensures var r := CreditFrom(a, stack, j, seen, delta);
      && r.selfSamples == a.selfSamples && r.selfTime == a.selfTime
      && Get(r.totalSamples, f, 0) == Get(a.totalSamples, f, 0) + (if f in NamesFrom(stack, j) && f !in seen then 1 else 0)
      && Get(r.totalTime, f, 0) == Get(a.totalTime, f, 0) + (if f in NamesFrom(stack, j) && f !in seen then delta else 0)
      && EdgeCount(r.callTree, p, c) == EdgeCount(a.callTree, p, c) + PairsFrom(stack, j, p, c)
    decreases |stack| - j
  {
    if j < |stack| {
      var name := stack[j].1;
      var a1 := if name !in seen
        then a.(totalSamples := Add(a.totalSamples, name, 1), totalTime := Add(a.totalTime, name, delta))
        else a;
      var a2 := if j + 1 < |stack| then a1.(callTree := AddEdge(a1.callTree, stack[j + 1].1, name)) else a1;
      CreditFromEffect(a2, stack, j + 1, seen + {name}, delta, f, p, c);
      GetAdd(a.totalSamples, name, 1, f);
      GetAdd(a.totalTime, name, delta, f);
      if j + 1 < |stack| {
        EdgeCountAddEdge(a1.callTree, stack[j + 1].1, name, p, c);
      }
      assert NamesFrom(stack, j) == {name} + NamesFrom(stack, j + 1);
    }
  }

  lemma CreditSampleEffect(a: Analysis, stack: seq<Frame>, delta: int, f: string, p: string, c: string)
    ensures var r := CreditSample(a, stack, delta);
      && Get(r.selfSamples, f, 0) == Get(a.selfSamples, f, 0) + (if LeafIs(stack, f) then 1 else 0)
      && Get(r.selfTime, f, 0) == Get(a.selfTime, f, 0) + (if LeafIs(stack, f) then delta else 0)
      && Sum(r.selfSamples) == Sum(a.selfSamples) + (if stack != [] then 1 else 0)
      && Get(r.totalSamples, f, 0) == Get(a.totalSamples, f, 0) + (if f in NamesFrom(stack, 0) then 1 else 0)
      && Get(r.totalTime, f, 0) == Get(a.totalTime, f, 0) + (if f in NamesFrom(stack, 0) then delta else 0)
      && EdgeCount(r.callTree, p, c) == EdgeCount(a.callTree, p, c) + PairsFrom(stack, 0, p, c)
  {
    if stack != [] {
      var leaf := stack[0].1;
      var a1 := a.(selfSamples := Add(a.selfSamples, leaf, 1), selfTime := Add(a.selfTime, leaf, delta));
      CreditFromEffect(a1, stack, 0, {}, delta, f, p, c);
      GetAdd(a.selfSamples, leaf, 1, f);
      GetAdd(a.selfTime, leaf, delta, f);
      SumSet(a.selfSamples, leaf, Get(a.selfSamples, leaf, 0) + 1);
    }
  }

  /** The aggregates of `analyze_samples` are exactly the per-function
      counts and time sums over the samples: self statistics credit only the
      leaf, total statistics credit each distinct name once per sample, each
      adjacent stack pair adds one call-table edge, and the self counts add
      up to the number of samples with a non-empty stack. */
  lemma {:induction false} AnalysisMeaning(stacks: seq<seq<Frame>>, timeDeltas: seq<int>, n: nat,
                                           f: string, p: string, c: string)
    requires n <= |stacks|
    ensures var a := AnalyzeStacks(stacks, timeDeltas, n);
      && Get(a.selfSamples, f, 0) == LeafCount(stacks, n, f)
      && Get(a.selfTime, f, 0) == LeafTime(stacks, timeDeltas, n, f)
      && Get(a.totalSamples, f, 0) == ContainCount(stacks, n, f)
      && Get(a.totalTime, f, 0) == ContainTime(stacks, timeDeltas, n, f)
      && EdgeCount(a.callTree, p, c) == PairTotal(stacks, n, p, c)
      && Sum(a.selfSamples) == NonEmptyCount(stacks, n)
  {
    if n > 0 {
      AnalysisMeaning(stacks, timeDeltas, n - 1, f, p, c);
      CreditSampleEffect(AnalyzeStacks(stacks, timeDeltas, n - 1), stacks[n - 1], Delta(timeDeltas, n - 1), f, p, c);
    }
  }

  /** A leaf is in its own stack, so self never exceeds total: for sample
      counts always, and for times when no delta is negative. */
  lemma {:induction false} SelfBelowTotal(stacks: seq<seq<Frame>>, timeDeltas: seq<int>, n: nat, f: string)
    requires n <= |stacks|
    ensures LeafCount(stacks, n, f) <= ContainCount(stacks, n, f)
    ensures (forall i :: 0 <= i < |timeDeltas| ==> timeDeltas[i] >= 0) ==>
              LeafTime(stacks, timeDeltas, n, f) <= ContainTime(stacks, timeDeltas, n, f)
  {
    if n > 0 {
      SelfBelowTotal(stacks, timeDeltas, n - 1, f);
      if LeafIs(stacks[n - 1], f) {
        assert f in NamesFrom(stacks[n - 1], 0);
      }
    }
  }

  /** The statement for the result of `analyze_samples` itself. */
  lemma AnalyzeSamplesMeaning(nodes: NodeTable, samples: seq<int>, timeDeltas: seq<int>, f: string)
    requires forall i :: 0 <= i < |timeDeltas| ==> timeDeltas[i] >= 0
    ensures var stacks := StacksOf(nodes, samples);
      var a := AnalyzeStacks(stacks, timeDeltas, |samples|);
      && Get(a.selfSamples, f, 0) <= Get(a.totalSamples, f, 0)
      && Get(a.selfTime, f, 0) <= Get(a.totalTime, f, 0)
      && Sum(a.selfSamples) == NonEmptyCount(stacks, |samples|)
  {
    var stacks := StacksOf(nodes, samples);
    AnalysisMeaning(stacks, timeDeltas, |samples|, f, "", "");
    SelfBelowTotal(stacks, timeDeltas, |samples|, f);
  }

  // ---------------------------------------------------------------------
  // Bottleneck classification.

  /** The categories of `print_bottleneck_analysis`, in the order their
      patterns are tried. */
  datatype Category =
    | WasmToJsMemoryCopy | GpuBufferUpload | DirtyBufferSync | BindGroupCreation
    | CommandEncoderCreation | WasmToJsCall | JsToWasmCall | GpuSubmit | ShaderCompilation

  function Rank(c: Category): nat
  {
    match c
    case WasmToJsMemoryCopy => 0
    case GpuBufferUpload => 1
    case DirtyBufferSync => 2
    case BindGroupCreation => 3
    case CommandEncoderCreation => 4
    case WasmToJsCall => 5
    case JsToWasmCall => 6
    case GpuSubmit => 7
    case ShaderCompilation => 8
  }

  function Title(c: Category): string
  {
    match c
    case WasmToJsMemoryCopy => "WASM→JS Memory Copy"
    case GpuBufferUpload => "GPU Buffer Upload"
    case DirtyBufferSync => "Dirty Buffer Sync"
    case BindGroupCreation => "Bind Group Creation"
    case CommandEncoderCreation => "Command Encoder Creation"
    case WasmToJsCall => "WASM→JS Call"
    case JsToWasmCall => "JS→WASM Call"
    case GpuSubmit => "GPU Submit"
    case ShaderCompilation => "Shader Compilation (Naga)"
  }

  /** The pattern of each category, matched on its own. */
  predicate Matches(c: Category, name: string)
  {
    match c
    case WasmToJsMemoryCopy => Contains(name, "new_from_slice")
    case GpuBufferUpload => Contains(Lower(name), "write_buffer")
    case DirtyBufferSync => Contains(Lower(name), "sync_dirty")
    case BindGroupCreation => Contains(name, "createBindGroup")
    case CommandEncoderCreation => Contains(name, "createCommandEncoder")
    case WasmToJsCall => Contains(Lower(name), "wasm-to-js")
    case JsToWasmCall => Contains(Lower(name), "js-to-wasm")
    case GpuSubmit => Contains(Lower(name), "submit") && Contains(name, "wbg")
    case ShaderCompilation => Contains(Lower(name), "naga")
  }

  /** The if/elif chain: the category of the first pattern that matches. */
  function Classify(name: string): (r: Option<Category>)
    ensures r.Some? ==> Matches(r.value, name) && forall c :: Rank(c) < Rank(r.value) ==> !Matches(c, name)
    ensures r.None? ==> forall c :: !Matches(c, name)
  {
    if Contains(name, "new_from_slice") then Some(WasmToJsMemoryCopy)
    else if Contains(Lower(name), "write_buffer") then Some(GpuBufferUpload)
    else if Contains(Lower(name), "sync_dirty") then Some(DirtyBufferSync)
    else if Contains(name, "createBindGroup") then Some(BindGroupCreation)
    else if Contains(name, "createCommandEncoder") then Some(CommandEncoderCreation)
    else if Contains(Lower(name), "wasm-to-js") then Some(WasmToJsCall)
    else if Contains(Lower(name), "js-to-wasm") then Some(JsToWasmCall)
    else if Contains(Lower(name), "submit") && Contains(name, "wbg") then Some(GpuSubmit)
    else if Contains(Lower(name), "naga") then Some(ShaderCompilation)
    else None
  }

  /** `(t / total * 100) if total else 0`, in exact arithmetic. */
  function Share(t: int, total: int): real
  {
    if total != 0 then t as real / total as real * 100.0 else 0.0
  }

  /** A categorised entry `(name, t, pct, self_pct)`. */
  datatype Entry = Entry(name: string, time: int, pct: real, selfPct: real)

  /** What one item `(name, t)` of `total_time` contributes to category `c`. */
  function Placed(item: (string, int), selfTime: Dict<string, int>, total: int, c: Category): seq<Entry>
  {
    var (name, t) := item;
    if Share(t, total) >= 0.5 && Classify(name) == Some(c)
    then [Entry(name, t, Share(t, total), Share(Get(selfTime, name, 0), total))]
    else []
  }

  /** The items of `total_time` that land in category `c`, in dictionary
      order: share at least 0.5% and `c` is the first matching pattern. */
  function InCategory(totalTime: Dict<string, int>, selfTime: Dict<string, int>, total: int, c: Category): seq<Entry>
  {
    if totalTime == [] then []
    else Placed(totalTime[0], selfTime, total, c) + InCategory(totalTime[1..], selfTime, total, c)
  }

  /** The categorisation loop of `print_bottleneck_analysis`; the report
      rendering that follows it is not modelled. */
  method Categorize(totalTime: Dict<string, int>, selfTime: Dict<string, int>, total: int)
    returns (categories: Dict<Category, seq<Entry>>)
    ensures forall c :: Get(categories, c, []) == InCategory(totalTime, selfTime, total, c)
    ensures forall c :: c in Keys(categories) <==> InCategory(totalTime, selfTime, total, c) != []
  {
    categories := [];
    var k := 0;
    while k < |totalTime|
      invariant 0 <= k <= |totalTime|
      invariant forall c :: Get(categories, c, []) + InCategory(totalTime[k..], selfTime, total, c)
                              == InCategory(totalTime, selfTime, total, c)
      invariant forall c :: c in Keys(categories) <==> Get(categories, c, []) != []
    {
      ghost var before := categories;
      categories := Place(categories, totalTime[k], selfTime, total);
      assert forall c :: Get(categories, c, []) + InCategory(totalTime[k + 1..], selfTime, total, c)
                           == InCategory(totalTime, selfTime, total, c) by {
        CategorizeStep(before, categories, totalTime, selfTime, total, k);
      }
      k := k + 1;
    }
    assert totalTime[k..] == [];
  }

  /** One iteration of the categorisation loop: item `(name, t)` is appended
      to the list of its category when it is placed. */
  method Place(categories: Dict<Category, seq<Entry>>, item: (string, int), selfTime: Dict<string, int>, total: int)
    returns (next: Dict<Category, seq<Entry>>)
    requires forall c :: c in Keys(categories) <==> Get(categories, c, []) != []
    ensures forall c :: Get(next, c, []) == Get(categories, c, []) + Placed(item, selfTime, total, c)
    ensures forall c :: c in Keys(next) <==> Get(next, c, []) != []
  {
    var name := item.0;
    var t := item.1;
    var pct := Share(t, total);
    var selfPct := Share(Get(selfTime, name, 0), total);
    var cat := Classify(name);
    next := categories;
    if pct >= 0.5 && cat.Some? {
      var items := Get(categories, cat.value, []);
      AppendEntry(categories, cat.value, Entry(name, t, pct, selfPct));
      next := Set(categories, cat.value, items + [Entry(name, t, pct, selfPct)]);
      PlacedHit(item, selfTime, total, cat.value);
    } else {
      PlacedMiss(item, selfTime, total);
    }
  }

  /** An item that is placed lands in its own category and no other. */
  lemma PlacedHit(item: (string, int), selfTime: Dict<string, int>, total: int, c0: Category)
    requires Share(item.1, total) >= 0.5 && Classify(item.0) == Some(c0)
    ensures forall c :: Placed(item, selfTime, total, c) ==
                          if c == c0 then [Entry(item.0, item.1, Share(item.1, total), Share(Get(selfTime, item.0, 0), total))]
                          else []
  {
  }

  /** An item that is too small or matches no pattern lands nowhere. */
  lemma PlacedMiss(item: (string, int), selfTime: Dict<string, int>, total: int)
    requires !(Share(item.1, total) >= 0.5 && Classify(item.0).Some?)
    ensures forall c :: Placed(item, selfTime, total, c) == []
  {
  }

  lemma CategorizeStep(before: Dict<Category, seq<Entry>>, after: Dict<Category, seq<Entry>>,
                       totalTime: Dict<string, int>, selfTime: Dict<string, int>, total: int, k: nat)
    requires k < |totalTime|
    requires forall c :: Get(before, c, []) + InCategory(totalTime[k..], selfTime, total, c)
                           == InCategory(totalTime, selfTime, total, c)
    requires forall c :: Get(after, c, []) == Get(before, c, []) + Placed(totalTime[k], selfTime, total, c)
    ensures forall c :: Get(after, c, []) + InCategory(totalTime[k + 1..], selfTime, total, c)
                          == InCategory(totalTime, selfTime, total, c)
  {
    assert totalTime[k..][1..] == totalTime[k + 1..];
    forall c ensures Get(after, c, []) + InCategory(totalTime[k + 1..], selfTime, total, c)
                     == InCategory(totalTime, selfTime, total, c) {
      assert InCategory(totalTime[k..], selfTime, total, c)
          == Placed(totalTime[k], selfTime, total, c) + InCategory(totalTime[k + 1..], selfTime, total, c);
    }
  }

  /** `categories[c0].append(e)` on the defaultdict of lists. */
  lemma AppendEntry(cats: Dict<Category, seq<Entry>>, c0: Category, e: Entry)
    requires forall c :: c in Keys(cats) <==> Get(cats, c, []) != []
    ensures var r := Set(cats, c0, Get(cats, c0, []) + [e]);
      && (forall c :: Get(r, c, []) == if c == c0 then Get(cats, c0, []) + [e] else Get(cats, c, []))
      && (forall c :: c in Keys(r) <==> Get(r, c, []) != [])
  {
    var r := Set(cats, c0, Get(cats, c0, []) + [e]);
    forall c ensures Get(r, c, []) == if c == c0 then Get(cats, c0, []) + [e] else Get(cats, c, []) {
      GetSet(cats, c0, Get(cats, c0, []) + [e], c, []);
    }
    KeysSet(cats, c0, Get(cats, c0, []) + [e]);
  }

  /** Every categorised function sits in exactly the category of its first
      matching pattern, with share at least 0.5%; so no function is in two
      categories, and unmatched or tiny functions are in none. */
  lemma {:induction false} InCategoryMeaning(totalTime: Dict<string, int>, selfTime: Dict<string, int>, total: int,
                                             c: Category, e: Entry)
    requires e in InCategory(totalTime, selfTime, total, c)
    ensures Classify(e.name) == Some(c) && Matches(c, e.name)
    ensures e.pct >= 0.5 && e.pct == Share(e.time, total)
    ensures forall c' :: c' != c ==> e !in InCategory(totalTime, selfTime, total, c')
  {
    if totalTime != [] {
      var here := Placed(totalTime[0], selfTime, total, c);
      if e in here {
        forall c' | c' != c ensures e !in InCategory(totalTime, selfTime, total, c') {
          if e in InCategory(totalTime, selfTime, total, c') {
            InCategoryFrom(totalTime, selfTime, total, c', e);
          }
        }
      } else {
        InCategoryMeaning(totalTime[1..], selfTime, total, c, e);
        forall c' | c' != c ensures e !in InCategory(totalTime, selfTime, total, c') {
          if e in InCategory(totalTime, selfTime, total, c') {
            InCategoryFrom(totalTime, selfTime, total, c', e);
          }
        }
      }
    }
  }

  lemma {:induction false} InCategoryFrom(totalTime: Dict<string, int>, selfTime: Dict<string, int>, total: int,
                                          c: Category, e: Entry)
    requires e in InCategory(totalTime, selfTime, total, c)
    ensures Classify(e.name) == Some(c)
  {
    if totalTime != [] {
      var here := Placed(totalTime[0], selfTime, total, c);
      if e !in here {
        InCategoryFrom(totalTime[1..], selfTime, total, c, e);
      }
    }
  }

  // ---------------------------------------------------------------------
  // Formatting helpers.

  /** Python's `s[:k]` for any integer k (a negative k counts from the end). */
  function PyPrefix(s: string, k: int): string
  {
    if k >= 0 then (if k <= |s| then s[..k] else s)
    else if |s| + k >= 0 then s[..|s| + k]
    else []
  }

  /** `truncate(s, max_len)`. */
  function Truncate(s: string, maxLen: int): (r: string)
    ensures |s| <= maxLen ==> r == s
    ensures |s| > maxLen >= 3 ==> |r| == maxLen && r[..maxLen - 3] == s[..maxLen - 3] && r[maxLen - 3..] == "..."
  {
    if |s| <= maxLen then s else PyPrefix(s, maxLen - 3) + "..."
  }

  /** Below a width of 3, Python's negative slice keeps characters from the
      front, so the result is longer than the requested width. */
  lemma TruncateBelowThree()
    ensures Truncate("abcdef", 2) == "abcde..."
    ensures |Truncate("abcdef", 2)| > 2
  {
    assert PyPrefix("abcdef", -1) == "abcde";
  }

  /** The three shapes of `format_time`: seconds and milliseconds are
      rendered by Python's float formatting with two decimals (modelled as
      the exact quotient), microseconds as the integer itself. */
  datatype TimeText = Seconds(value: real) | Milliseconds(value: real) | Microseconds(text: string)

  function IntToString(n: int): string
  {
    if n >= 0 then NatToString(n) else "-" + NatToString(-n)
  }

  function FormatTime(us: int): (r: TimeText)
    ensures r.Seconds? <==> us >= 1000000
    ensures r.Seconds? ==> r.value >= 1.0 && r.value * 1000000.0 == us as real
    ensures r.Milliseconds? ==> 1.0 <= r.value < 1000.0 && r.value * 1000.0 == us as real
    ensures r.Microseconds? ==> us < 1000 && r.text == IntToString(us) + "µs"
  {
    if us >= 1000000 then Seconds(us as real / 1000000.0)
    else if us >= 1000 then Milliseconds(us as real / 1000.0)
    else Microseconds(IntToString(us) + "µs")
  }
}
