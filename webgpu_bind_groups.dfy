// Bind-group cache of the WebGPU backend: hit/miss counters, eviction by
// capacity, and a per-resource dependency tracker so that destroying a
// buffer, texture view or sampler drops every cached group that binds it.

module WebgpuBindGroups {
  import opened Wrappers
  import opened WebgpuHub

  /// Capacity the context gives its cache.
  const BindGroupCacheSize: nat := 1024

  datatype PipelineKey = Render(renderKey: RenderPipelineKey) | Compute(computeKey: ComputePipelineKey)

  datatype ResourceBinding =
    | BufferBinding(binding: nat, bufferKey: BufferKey, offset: nat, size: nat)
    | TextureViewBinding(binding: nat, viewKey: TextureViewKey)
    | SamplerBinding(binding: nat, samplerKey: SamplerKey)
    /// Uniform data from the plain-data ring, keyed by content.
    | PlainData(binding: nat, offset: nat, size: nat)
    /// Uniform data with a dynamic offset, keyed by ring index and size.
    | PlainDataDynamic(binding: nat, bufferIndex: nat, size: nat)

  datatype BindGroupCacheKey = BindGroupCacheKey(
    pipelineKey: PipelineKey,
    groupIndex: nat,
    bindings: seq<ResourceBinding>)

  /// A wgpu bind group, as produced by the caller's creation closure.
  datatype BindGroup = BindGroup(id: nat)

  type Dependents = set<BindGroupCacheKey>

  function BufferOf(b: ResourceBinding): Option<BufferKey>
  {
    if b.BufferBinding? then Some(b.bufferKey) else None
  }

  function TextureViewOf(b: ResourceBinding): Option<TextureViewKey>
  {
    if b.TextureViewBinding? then Some(b.viewKey) else None
  }

  function SamplerOf(b: ResourceBinding): Option<SamplerKey>
  {
    if b.SamplerBinding? then Some(b.samplerKey) else None
  }

  /// The resources of one kind a binding list refers to.
  function Picked<K>(bs: seq<ResourceBinding>, pick: ResourceBinding -> Option<K>): set<K>
  {
    set i | 0 <= i < |bs| && pick(bs[i]).Some? :: pick(bs[i]).value
  }

  function BuffersOf(bs: seq<ResourceBinding>): set<BufferKey> { Picked(bs, BufferOf) }
  function ViewsOf(bs: seq<ResourceBinding>): set<TextureViewKey> { Picked(bs, TextureViewOf) }
  function SamplersOf(bs: seq<ResourceBinding>): set<SamplerKey> { Picked(bs, SamplerOf) }

  lemma PickedPrefix<K>(bs: seq<ResourceBinding>, pick: ResourceBinding -> Option<K>, i: nat)
    requires i < |bs|
    ensures Picked(bs[..i + 1], pick) ==
      Picked(bs[..i], pick) + (if pick(bs[i]).Some? then {pick(bs[i]).value} else {})
  {
    var lhs := Picked(bs[..i + 1], pick);
    var rhs := Picked(bs[..i], pick) + (if pick(bs[i]).Some? then {pick(bs[i]).value} else {});
    forall k | k in lhs ensures k in rhs {
      var j :| 0 <= j < i + 1 && pick(bs[..i + 1][j]).Some? && pick(bs[..i + 1][j]).value == k;
      if j < i {
        assert bs[..i][j] == bs[j];
      }
    }
    forall k | k in rhs ensures k in lhs {
      if pick(bs[i]).Some? && k == pick(bs[i]).value {
        assert bs[..i + 1][i] == bs[i];
      } else {
        var j :| 0 <= j < i && pick(bs[..i][j]).Some? && pick(bs[..i][j]).value == k;
        assert bs[..i + 1][j] == bs[..i][j];
      }
    }
  }

  /// The dependents recorded for `k`, empty when there is no entry.
  function DependentsOf<K>(deps: map<K, Dependents>, k: K): Dependents
  {
    if k in deps then deps[k] else {}
  }

  /// `deps` after recording `c` under every key of `keys`.
  function AddDependent<K>(deps: map<K, Dependents>, keys: set<K>, c: BindGroupCacheKey): (r: map<K, Dependents>)
    ensures r.Keys == deps.Keys + keys
    ensures forall k | k in keys :: c in r[k]
    ensures forall k | k in deps :: deps[k] <= r[k]
  {
    map k | k in deps.Keys + keys :: DependentsOf(deps, k) + (if k in keys then {c} else {})
  }

  lemma AddDependentNone<K>(deps: map<K, Dependents>, c: BindGroupCacheKey)
    ensures AddDependent(deps, {}, c) == deps
  {
    var r := AddDependent(deps, {}, c);
    assert r.Keys == deps.Keys;
    forall x | x in r ensures r[x] == deps[x] {
    }
  }

  lemma AddDependentStep<K>(deps: map<K, Dependents>, keys: set<K>, k: K, c: BindGroupCacheKey)
    ensures AddDependent(deps, keys + {k}, c) ==
      var m := AddDependent(deps, keys, c); m[k := DependentsOf(m, k) + {c}]
  {
    var m := AddDependent(deps, keys, c);
    var lhs := AddDependent(deps, keys + {k}, c);
    var rhs := m[k := DependentsOf(m, k) + {c}];
    assert lhs.Keys == rhs.Keys;
    forall x | x in lhs ensures lhs[x] == rhs[x] {
    }
  }

  /// Records `c` under the resource of kind `pick` that `b` binds, if any;
  /// a first use of the resource starts an empty set.
  function Record<K>(deps: map<K, Dependents>, pick: ResourceBinding -> Option<K>,
                     b: ResourceBinding, c: BindGroupCacheKey): map<K, Dependents>
  {
    match pick(b)
    case Some(k) => deps[k := DependentsOf(deps, k) + {c}]
    case None => deps
  }

  lemma RecordStep<K>(deps: map<K, Dependents>, bs: seq<ResourceBinding>,
                      pick: ResourceBinding -> Option<K>, i: nat, c: BindGroupCacheKey)
    requires i < |bs|
    ensures AddDependent(deps, Picked(bs[..i + 1], pick), c) ==
      Record(AddDependent(deps, Picked(bs[..i], pick), c), pick, bs[i], c)
  {
    PickedPrefix(bs, pick, i);
    if pick(bs[i]).Some? {
      AddDependentStep(deps, Picked(bs[..i], pick), pick(bs[i]).value, c);
    } else {
      assert Picked(bs[..i + 1], pick) == Picked(bs[..i], pick);
    }
  }

  /// Records, for every buffer, texture view and sampler, the cached
  /// groups that bind it.
  class DependencyTracker {
    var bufferDeps: map<BufferKey, Dependents>
    var textureViewDeps: map<TextureViewKey, Dependents>
    var samplerDeps: map<SamplerKey, Dependents>

    constructor ()
      ensures bufferDeps == map[] && textureViewDeps == map[] && samplerDeps == map[]
    {
      bufferDeps := map[];
      textureViewDeps := map[];
      samplerDeps := map[];
    }

    /// Records `cacheKey` under every buffer, view and sampler it binds;
    /// plain-data bindings are not tracked.
    method Register(cacheKey: BindGroupCacheKey)
      modifies this
      ensures bufferDeps == AddDependent(old(bufferDeps), BuffersOf(cacheKey.bindings), cacheKey)
      ensures textureViewDeps == AddDependent(old(textureViewDeps), ViewsOf(cacheKey.bindings), cacheKey)
      ensures samplerDeps == AddDependent(old(samplerDeps), SamplersOf(cacheKey.bindings), cacheKey)
    {
      var bs := cacheKey.bindings;
      var i := 0;
      assert bs[..0] == [];
      AddDependentNone(bufferDeps, cacheKey);
      AddDependentNone(textureViewDeps, cacheKey);
      AddDependentNone(samplerDeps, cacheKey);
      while i < |bs|
        invariant 0 <= i <= |bs|
        invariant bufferDeps == AddDependent(old(bufferDeps), BuffersOf(bs[..i]), cacheKey)
        invariant textureViewDeps == AddDependent(old(textureViewDeps), ViewsOf(bs[..i]), cacheKey)
        invariant samplerDeps == AddDependent(old(samplerDeps), SamplersOf(bs[..i]), cacheKey)
      {
        RecordStep(old(bufferDeps), bs, BufferOf, i, cacheKey);
        RecordStep(old(textureViewDeps), bs, TextureViewOf, i, cacheKey);
        RecordStep(old(samplerDeps), bs, SamplerOf, i, cacheKey);
        Track(bs[i], cacheKey);
        i := i + 1;
      }
      assert bs[..i] == bs;
    }

    /// One iteration of the registration loop: `cacheKey` is recorded under
    /// the resource binding `b` names, if it names one.
    method Track(b: ResourceBinding, cacheKey: BindGroupCacheKey)
      modifies this
      ensures bufferDeps == Record(old(bufferDeps), BufferOf, b, cacheKey)
      ensures textureViewDeps == Record(old(textureViewDeps), TextureViewOf, b, cacheKey)
      ensures samplerDeps == Record(old(samplerDeps), SamplerOf, b, cacheKey)
    {
      match b {
        case BufferBinding(_, key, _, _) =>
          bufferDeps := bufferDeps[key := DependentsOf(bufferDeps, key) + {cacheKey}];
        case TextureViewBinding(_, key) =>
          textureViewDeps := textureViewDeps[key := DependentsOf(textureViewDeps, key) + {cacheKey}];
        case SamplerBinding(_, key) =>
          samplerDeps := samplerDeps[key := DependentsOf(samplerDeps, key) + {cacheKey}];
        case PlainData(_, _, _) =>
        case PlainDataDynamic(_, _, _) =>
      }
    }

    method RemoveBuffer(key: BufferKey)
      modifies this
      ensures bufferDeps == old(bufferDeps) - {key}
      ensures textureViewDeps == old(textureViewDeps) && samplerDeps == old(samplerDeps)
    {
      bufferDeps := bufferDeps - {key};
    }

    method RemoveTextureView(key: TextureViewKey)
      modifies this
      ensures textureViewDeps == old(textureViewDeps) - {key}
      ensures bufferDeps == old(bufferDeps) && samplerDeps == old(samplerDeps)
    {
      textureViewDeps := textureViewDeps - {key};
    }

    method RemoveSampler(key: SamplerKey)
      modifies this
      ensures samplerDeps == old(samplerDeps) - {key}
      ensures bufferDeps == old(bufferDeps) && textureViewDeps == old(textureViewDeps)
    {
      samplerDeps := samplerDeps - {key};
    }
  }

  /// Every key of `keys` is recorded under each resource of one kind it binds.
  ghost predicate CoveredBy<K>(keys: set<BindGroupCacheKey>, pick: ResourceBinding -> Option<K>, deps: map<K, Dependents>)
  {
    forall c, k | c in keys && k in Picked(c.bindings, pick) :: k in deps && c in deps[k]
  }

  /// Every cached key is recorded under each resource it binds.
  ghost predicate Covered(
    keys: set<BindGroupCacheKey>,
    bufferDeps: map<BufferKey, Dependents>,
    textureViewDeps: map<TextureViewKey, Dependents>,
    samplerDeps: map<SamplerKey, Dependents>)
  {
    CoveredBy(keys, BufferOf, bufferDeps) &&
    CoveredBy(keys, TextureViewOf, textureViewDeps) &&
    CoveredBy(keys, SamplerOf, samplerDeps)
  }

  /// Registering `c` covers `c` and keeps covering every key covered before.
  lemma CoveredByRegister<K>(keys: set<BindGroupCacheKey>, c: BindGroupCacheKey,
                             pick: ResourceBinding -> Option<K>, deps: map<K, Dependents>)
    requires CoveredBy(keys, pick, deps)
    ensures CoveredBy(keys + {c}, pick, AddDependent(deps, Picked(c.bindings, pick), c))
  {
    var r := AddDependent(deps, Picked(c.bindings, pick), c);
    forall c', k | c' in keys + {c} && k in Picked(c'.bindings, pick)
      ensures k in r && c' in r[k]
    {
      if c' != c {
        assert k in deps && c' in deps[k];
      }
    }
  }

  /// Dropping keys keeps the rest covered.
  lemma CoveredBySubset<K>(keys: set<BindGroupCacheKey>, fewer: set<BindGroupCacheKey>,
                           pick: ResourceBinding -> Option<K>, deps: map<K, Dependents>)
    requires CoveredBy(keys, pick, deps) && fewer <= keys
    ensures CoveredBy(fewer, pick, deps)
  {
  }

  /// Removing the dependents of `gone` together with its entry keeps the
  /// remaining groups covered, and none of them binds `gone` any more.
  lemma CoveredByInvalidate<K>(keys: set<BindGroupCacheKey>, pick: ResourceBinding -> Option<K>,
                               deps: map<K, Dependents>, gone: K)
    requires CoveredBy(keys, pick, deps)
    ensures CoveredBy(keys - DependentsOf(deps, gone), pick, deps - {gone})
    ensures forall c | c in keys - DependentsOf(deps, gone) :: gone !in Picked(c.bindings, pick)
  {
    var rest := keys - DependentsOf(deps, gone);
    forall c, k | c in rest && k in Picked(c.bindings, pick)
      ensures k in deps - {gone} && c in (deps - {gone})[k]
    {
      assert k in deps && c in deps[k];
    }
  }

  class BindGroupCache {
    var groups: map<BindGroupCacheKey, BindGroup>
    const deps: DependencyTracker
    const maxSize: nat
    var hits: nat
    var misses: nat

    ghost predicate Valid()
      reads this, deps
    {
      1 <= maxSize && |groups| <= maxSize &&
      Covered(groups.Keys, deps.bufferDeps, deps.textureViewDeps, deps.samplerDeps)
    }

    /// A capacity of 0 would make every miss evict forever, so it is excluded.
    constructor (maxSize: nat)
      requires 1 <= maxSize
      ensures Valid() && fresh(deps)
      ensures this.maxSize == maxSize && groups == map[] && hits == 0 && misses == 0
      ensures deps.bufferDeps == map[] && deps.textureViewDeps == map[] && deps.samplerDeps == map[]
    {
      groups := map[];
      deps := new DependencyTracker();
      this.maxSize := maxSize;
      hits := 0;
      misses := 0;
    }

    /// Returns the cached group for `key`, or caches `created` (the result
    /// of the caller's creation closure, only evaluated on a miss).
    method GetOrCreate(key: BindGroupCacheKey, created: BindGroup) returns (group: BindGroup)
      requires Valid()
      modifies this, deps
      ensures Valid() && |groups| <= maxSize
      ensures hits + misses == old(hits + misses) + 1
      ensures key in groups && group == groups[key]
      ensures key in old(groups) ==>
        hits == old(hits) + 1 && misses == old(misses) && groups == old(groups) &&
        deps.bufferDeps == old(deps.bufferDeps) && deps.textureViewDeps == old(deps.textureViewDeps) &&
        deps.samplerDeps == old(deps.samplerDeps)
      ensures key !in old(groups) ==>
        hits == old(hits) && misses == old(misses) + 1 && group == created &&
        deps.bufferDeps == AddDependent(old(deps.bufferDeps), BuffersOf(key.bindings), key) &&
        deps.textureViewDeps == AddDependent(old(deps.textureViewDeps), ViewsOf(key.bindings), key) &&
        deps.samplerDeps == AddDependent(old(deps.samplerDeps), SamplersOf(key.bindings), key) &&
        (forall k | k in groups && k != key :: k in old(groups) && groups[k] == old(groups)[k]) &&
        (|old(groups)| < maxSize ==> groups == old(groups)[key := created]) &&
        |groups| == (if |old(groups)| < maxSize then |old(groups)| + 1 else maxSize)
    {
      if key in groups {
        hits := hits + 1;
        return groups[key];
      }
      misses := misses + 1;
      deps.Register(key);
      CoveredByRegister(groups.Keys, key, BufferOf, old(deps.bufferDeps));
      CoveredByRegister(groups.Keys, key, TextureViewOf, old(deps.textureViewDeps));
      CoveredByRegister(groups.Keys, key, SamplerOf, old(deps.samplerDeps));
      EvictToFit();
      groups := groups[key := created];
      group := created;
      CoveredBySubset(old(groups).Keys + {key}, groups.Keys, BufferOf, deps.bufferDeps);
      CoveredBySubset(old(groups).Keys + {key}, groups.Keys, TextureViewOf, deps.textureViewDeps);
      CoveredBySubset(old(groups).Keys + {key}, groups.Keys, SamplerOf, deps.samplerDeps);
    }

    /// Evicts entries until there is room for one more.
    method EvictToFit()
      requires 1 <= maxSize
      modifies this
      ensures |groups| < maxSize
      ensures groups.Keys <= old(groups).Keys
      ensures forall k | k in groups :: groups[k] == old(groups)[k]
      ensures |old(groups)| < maxSize ==> groups == old(groups)
      ensures |old(groups)| >= maxSize ==> |groups| == maxSize - 1
      ensures hits == old(hits) && misses == old(misses)
    {
      while |groups| >= maxSize
        invariant groups.Keys <= old(groups).Keys
        invariant forall k | k in groups :: groups[k] == old(groups)[k]
        invariant |old(groups)| < maxSize ==> groups == old(groups)
        invariant |old(groups)| >= maxSize ==> |groups| >= maxSize - 1
        invariant hits == old(hits) && misses == old(misses)
        decreases |groups|
      {
        EvictOne();
      }
    }

    /// Removes one arbitrary entry (the source takes the first key in
    /// hash order).
    method EvictOne()
      requires |groups| > 0
      modifies this
      ensures |groups| == |old(groups)| - 1
      ensures groups.Keys < old(groups).Keys
      ensures forall k | k in groups :: groups[k] == old(groups)[k]
      ensures hits == old(hits) && misses == old(misses)
    {
      var victim :| victim in groups;
      groups := groups - {victim};
    }

    /// Drops every cached group in `dependents`.
    method RemoveGroups(dependents: Dependents)
      modifies this
      ensures groups == old(groups) - dependents
      ensures hits == old(hits) && misses == old(misses)
    {
      var todo := dependents;
      while todo != {}
        invariant todo <= dependents
        invariant groups == old(groups) - (dependents - todo)
        invariant hits == old(hits) && misses == old(misses)
        decreases |todo|
      {
        var k :| k in todo;
        groups := groups - {k};
        todo := todo - {k};
      }
    }

    /// Called before a buffer leaves the hub.
    method InvalidateBuffer(key: BufferKey)
      requires Valid()
      modifies this, deps
      ensures Valid()
      ensures groups == old(groups) - DependentsOf(old(deps.bufferDeps), key)
      ensures forall c | c in groups :: key !in BuffersOf(c.bindings)
      ensures deps.bufferDeps == old(deps.bufferDeps) - {key}
      ensures deps.textureViewDeps == old(deps.textureViewDeps) && deps.samplerDeps == old(deps.samplerDeps)
      ensures hits == old(hits) && misses == old(misses)
    {
      CoveredByInvalidate(groups.Keys, BufferOf, deps.bufferDeps, key);
      CoveredBySubset(groups.Keys, groups.Keys - DependentsOf(deps.bufferDeps, key), TextureViewOf, deps.textureViewDeps);
      CoveredBySubset(groups.Keys, groups.Keys - DependentsOf(deps.bufferDeps, key), SamplerOf, deps.samplerDeps);
      if key in deps.bufferDeps {
        RemoveGroups(deps.bufferDeps[key]);
      }
      deps.RemoveBuffer(key);
    }

    /// Called before a texture view leaves the hub.
    method InvalidateTextureView(key: TextureViewKey)
      requires Valid()
      modifies this, deps
      ensures Valid()
      ensures groups == old(groups) - DependentsOf(old(deps.textureViewDeps), key)
      ensures forall c | c in groups :: key !in ViewsOf(c.bindings)
      ensures deps.textureViewDeps == old(deps.textureViewDeps) - {key}
      ensures deps.bufferDeps == old(deps.bufferDeps) && deps.samplerDeps == old(deps.samplerDeps)
      ensures hits == old(hits) && misses == old(misses)
    {
      CoveredByInvalidate(groups.Keys, TextureViewOf, deps.textureViewDeps, key);
      CoveredBySubset(groups.Keys, groups.Keys - DependentsOf(deps.textureViewDeps, key), BufferOf, deps.bufferDeps);
      CoveredBySubset(groups.Keys, groups.Keys - DependentsOf(deps.textureViewDeps, key), SamplerOf, deps.samplerDeps);
      if key in deps.textureViewDeps {
        RemoveGroups(deps.textureViewDeps[key]);
      }
      deps.RemoveTextureView(key);
    }

    /// Called before a sampler leaves the hub.
    method InvalidateSampler(key: SamplerKey)
      requires Valid()
      modifies this, deps
      ensures Valid()
      ensures groups == old(groups) - DependentsOf(old(deps.samplerDeps), key)
      ensures forall c | c in groups :: key !in SamplersOf(c.bindings)
      ensures deps.samplerDeps == old(deps.samplerDeps) - {key}
      ensures deps.bufferDeps == old(deps.bufferDeps) && deps.textureViewDeps == old(deps.textureViewDeps)
      ensures hits == old(hits) && misses == old(misses)
    {
      CoveredByInvalidate(groups.Keys, SamplerOf, deps.samplerDeps, key);
      CoveredBySubset(groups.Keys, groups.Keys - DependentsOf(deps.samplerDeps, key), BufferOf, deps.bufferDeps);
      CoveredBySubset(groups.Keys, groups.Keys - DependentsOf(deps.samplerDeps, key), TextureViewOf, deps.textureViewDeps);
      if key in deps.samplerDeps {
        RemoveGroups(deps.samplerDeps[key]);
      }
      deps.RemoveSampler(key);
    }

    /// (hits, misses, current size).
    function Stats(): (stats: (nat, nat, nat))
      reads this
      ensures stats.0 == hits && stats.1 == misses && stats.2 == |groups|
    {
      (hits, misses, |groups| as nat)
    }
  }
}
