/** DeltaHeapProfiler of godeltaprof: turns the runtime's cumulative heap
    records into per-read deltas. Pass one accumulates every record into its
    entry's acc; pass two compares acc with the baseline prev, emits the
    delta, re-baselines and clears acc. */
module DeltaHeap {
  import opened Runtime
  import opened DeltaCommon
  import Proto

  /** heapAccValue: what pass one accumulated for a key during this read. */
  datatype HeapAcc = HeapAcc(allocObjects: int, inuseObjects: int)

  /** An entry of profMap: prev is heapPrevValue.allocObjects, the baseline
      of the last emitted read. */
  datatype HeapEntry = HeapEntry(prev: int, acc: HeapAcc)

  const ZeroAcc := HeapAcc(0, 0)
  const ZeroEntry := HeapEntry(0, ZeroAcc)

  type Entries = map<Key, HeapEntry>

  /** The entry profMap.Lookup returns: the stored one, or a zero entry. */
  function Find(m: Entries, k: Key): HeapEntry
  {
    if k in m then m[k] else ZeroEntry
  }

  /** The average object size, when any object was allocated. */
  function BlockSize(r: MemProfileRecord): int
  {
    if r.allocObjects > 0 then Quot(r.allocBytes, r.allocObjects) else 0
  }

  function KeyOf(r: MemProfileRecord): Key
  {
    Key(Stack(r.stack0), BlockSize(r))
  }

  /** The keys of the records that are not fresh. */
  ghost function KeysOf(p: seq<MemProfileRecord>): set<Key>
  {
    set i | 0 <= i < |p| && !Fresh(p[i]) :: KeyOf(p[i])
  }

  // Pass one

  /** Pass one on one record: a fresh record is skipped, any other adds its
      allocated and in-use objects to its entry's acc. */
  function AccStep(m: Entries, r: MemProfileRecord): Entries
  {
    if Fresh(r) then m
    else
      var k := KeyOf(r);
      var e := Find(m, k);
      m[k := e.(acc := HeapAcc(e.acc.allocObjects + r.allocObjects, e.acc.inuseObjects + InUseObjects(r)))]
  }

  function AccPass(m: Entries, p: seq<MemProfileRecord>): Entries
  {
    if p == [] then m else AccStep(AccPass(m, p[..|p| - 1]), p[|p| - 1])
  }

  /** The allocated objects of the records of p that are not fresh and have key k. */
  function SumAlloc(p: seq<MemProfileRecord>, k: Key): int
  {
    if p == [] then 0
    else SumAlloc(p[..|p| - 1], k) + (if !Fresh(p[|p| - 1]) && KeyOf(p[|p| - 1]) == k then p[|p| - 1].allocObjects else 0)
  }

  /** The in-use objects of the records of p that are not fresh and have key k. */
  function SumInUse(p: seq<MemProfileRecord>, k: Key): int
  {
    if p == [] then 0
    else SumInUse(p[..|p| - 1], k) + (if !Fresh(p[|p| - 1]) && KeyOf(p[|p| - 1]) == k then InUseObjects(p[|p| - 1]) else 0)
  }

  lemma KeysOfStep(p: seq<MemProfileRecord>)
    requires p != []
    ensures KeysOf(p) == KeysOf(p[..|p| - 1]) + (if Fresh(p[|p| - 1]) then {} else {KeyOf(p[|p| - 1])})
  {
    var init := p[..|p| - 1];
    assert forall i :: 0 <= i < |init| ==> init[i] == p[i];
  }

  /** Pass one merges duplicates: every entry's acc grows by the sums over
      the records with its key, prev is untouched, and the only keys added
      are those of records that are not fresh. */
  lemma {:induction false} AccPassMeaning(m: Entries, p: seq<MemProfileRecord>)
    ensures var a := AccPass(m, p);
      a.Keys == m.Keys + KeysOf(p)
      && forall k :: Find(a, k) == HeapEntry(Find(m, k).prev, HeapAcc(Find(m, k).acc.allocObjects + SumAlloc(p, k),
                                                                    Find(m, k).acc.inuseObjects + SumInUse(p, k)))
  {
    if p != [] {
      var init, r := p[..|p| - 1], p[|p| - 1];
      AccPassMeaning(m, init);
      KeysOfStep(p);
    }
  }

  // Pass two

  /** The four values pass two computes for an entry: the allocation delta
      since the baseline and the accumulated in-use objects, each with its
      bytes (objects times block size), scaled. */
  function Values(e: HeapEntry, bs: int, rate: int, poisson: (int, int, int) -> (int, int)): seq<int>
  {
    var d := e.acc.allocObjects - e.prev;
    var a := ScaleHeapSample(d, d * bs, rate, poisson);
    var u := ScaleHeapSample(e.acc.inuseObjects, e.acc.inuseObjects * bs, rate, poisson);
    [a.0, a.1, u.0, u.1]
  }

  /** The entry map after pass two handles r: an entry with nothing
      accumulated or a negative delta is left as it is; any other is
      re-baselined at its accumulated count and its acc cleared. */
  function Settle(m: Entries, r: MemProfileRecord): Entries
  {
    if Fresh(r) then m
    else
      var k := KeyOf(r);
      var e := Find(m, k);
      if e.acc == ZeroAcc || e.acc.allocObjects - e.prev < 0 then m[k := e]
      else m[k := HeapEntry(e.acc.allocObjects, ZeroAcc)]
  }

  /** Pass two emits a sample for r: r is not fresh, its entry accumulated
      something, the delta is not negative and not all four values are 0. */
  predicate Emits(m: Entries, r: MemProfileRecord, rate: int, poisson: (int, int, int) -> (int, int))
  {
    !Fresh(r)
    && var e := Find(m, KeyOf(r));
    e.acc != ZeroAcc && e.acc.allocObjects - e.prev >= 0 && Values(e, BlockSize(r), rate, poisson) != [0, 0, 0, 0]
  }

  /** The environment of a read: which addresses are runtime functions, the
      builder's answers, and the floating-point Poisson scaling. */
  datatype Env = Env(isRuntime: Addr -> bool, locsFor: Oracle, poisson: (int, int, int) -> (int, int))

  datatype State = State(m: Entries, calls: seq<Call>)

  /** Pass two on one record: settle its entry and, when it emits, resolve
      its stack and add the sample, with the block size as aux. */
  function DeltaStep(s: State, r: MemProfileRecord, rate: int, env: Env): State
  {
    var m := Settle(s.m, r);
    if Emits(s.m, r, rate, env.poisson) then
      var res := Retry(s.calls, Stack(r.stack0), env.isRuntime, env.locsFor);
      State(m, res.calls + [Sample(Values(Find(s.m, KeyOf(r)), BlockSize(r), rate, env.poisson), res.locs, BlockSize(r))])
    else State(m, s.calls)
  }

  function DeltaPass(s: State, p: seq<MemProfileRecord>, rate: int, env: Env): State
  {
    if p == [] then s else DeltaStep(DeltaPass(s, p[..|p| - 1], rate, env), p[|p| - 1], rate, env)
  }

  /** The keys pass two emits a sample for, in order. */
  function Emitted(s: State, p: seq<MemProfileRecord>, rate: int, env: Env): seq<Key>
  {
    if p == [] then []
    else
      var init := p[..|p| - 1];
      Emitted(s, init, rate, env) + (if Emits(DeltaPass(s, init, rate, env).m, p[|p| - 1], rate, env.poisson)
                                     then [KeyOf(p[|p| - 1])] else [])
  }

  /** The whole read: pass one from m, then pass two from an empty log. */
  function Read(m: Entries, p: seq<MemProfileRecord>, rate: int, env: Env): State
  {
    DeltaPass(State(AccPass(m, p), []), p, rate, env)
  }

  predicate Distinct(ks: seq<Key>)
  {
    forall i, j :: 0 <= i < j < |ks| ==> ks[i] != ks[j]
  }

  /** Every key emitted so far has its acc cleared. */
  predicate Cleared(m: Entries, ks: seq<Key>)
  {
    forall i :: 0 <= i < |ks| ==> ks[i] in m && m[ks[i]].acc == ZeroAcc
  }

  /** A step adds at most the record's own key, only for a record that is
      not fresh, and never makes a cleared acc non-zero. */
  lemma SettleFrame(m: Entries, r: MemProfileRecord)
    ensures var m' := Settle(m, r);
      m'.Keys == m.Keys + (if Fresh(r) then {} else {KeyOf(r)})
      && (forall k :: k != KeyOf(r) ==> Find(m', k) == Find(m, k))
      && (forall k :: k in m && m[k].acc == ZeroAcc ==> m'[k].acc == ZeroAcc)
  {
  }

  /** Pass two keeps the keys: a key is added only for a record that is not
      fresh. */
  lemma {:induction false} DeltaPassKeys(s: State, p: seq<MemProfileRecord>, rate: int, env: Env)
    ensures DeltaPass(s, p, rate, env).m.Keys == s.m.Keys + KeysOf(p)
  {
    if p != [] {
      DeltaPassKeys(s, p[..|p| - 1], rate, env);
      SettleFrame(DeltaPass(s, p[..|p| - 1], rate, env).m, p[|p| - 1]);
      KeysOfStep(p);
    }
  }

  /** Pass two appends LocsForStack and Sample calls only, one Sample per
      emitted key. */
  lemma {:induction false} DeltaPassCalls(s: State, p: seq<MemProfileRecord>, rate: int, env: Env)
    ensures var t := DeltaPass(s, p, rate, env);
      s.calls <= t.calls && Samples(t.calls) == Samples(s.calls) + |Emitted(s, p, rate, env)|
      && forall i :: |s.calls| <= i < |t.calls| ==> t.calls[i].LocsForStack? || t.calls[i].Sample?
  {
    if p != [] {
      var init, r := p[..|p| - 1], p[|p| - 1];
      DeltaPassCalls(s, init, rate, env);
      var u := DeltaPass(s, init, rate, env);
      DeltaStepCalls(u, r, rate, env);
    }
  }

  /** One step of pass two appends LocsForStack calls and, when it emits,
      one Sample. */
  lemma DeltaStepCalls(u: State, r: MemProfileRecord, rate: int, env: Env)
    ensures var t := DeltaStep(u, r, rate, env);
      u.calls <= t.calls && Samples(t.calls) == Samples(u.calls) + (if Emits(u.m, r, rate, env.poisson) then 1 else 0)
      && forall i :: |u.calls| <= i < |t.calls| ==> t.calls[i].LocsForStack? || t.calls[i].Sample?
  {
    if Emits(u.m, r, rate, env.poisson) {
      var res := Retry(u.calls, Stack(r.stack0), env.isRuntime, env.locsFor);
      RetryShape(u.calls, Stack(r.stack0), env.isRuntime, env.locsFor);
      var smp := Sample(Values(Find(u.m, KeyOf(r)), BlockSize(r), rate, env.poisson), res.locs, BlockSize(r));
      CountsAppend(res.calls, [smp]);
      assert [smp][..0] == [];
    }
  }

  /** Each key yields at most one sample per read: once a key emits, its acc
      is cleared, and pass two never makes an acc non-zero again. */
  lemma {:induction false} DeltaPassOnce(s: State, p: seq<MemProfileRecord>, rate: int, env: Env)
    ensures var t := DeltaPass(s, p, rate, env);
      var ks := Emitted(s, p, rate, env);
      Distinct(ks) && Cleared(t.m, ks) && forall i :: 0 <= i < |ks| ==> ks[i] in KeysOf(p)
  {
    if p != [] {
      var init, r := p[..|p| - 1], p[|p| - 1];
      DeltaPassOnce(s, init, rate, env);
      KeysOfStep(p);
      var u := DeltaPass(s, init, rate, env);
      var ks0 := Emitted(s, init, rate, env);
      SettleFrame(u.m, r);
      if Emits(u.m, r, rate, env.poisson) {
        forall i | 0 <= i < |ks0| ensures ks0[i] != KeyOf(r) {
          if ks0[i] == KeyOf(r) {
            assert false;
          }
        }
      }
    }
  }

  /** A read emits one sample per key at most, only for keys of records that
      are not fresh, and ends with every emitting key's acc cleared. */
  lemma OneSamplePerKey(m: Entries, p: seq<MemProfileRecord>, rate: int, env: Env)
    ensures var t := Read(m, p, rate, env);
      var ks := Emitted(State(AccPass(m, p), []), p, rate, env);
      Samples(t.calls) == |ks| && Distinct(ks) && Cleared(t.m, ks)
      && forall i :: 0 <= i < |ks| ==> ks[i] in KeysOf(p)
  {
    DeltaPassCalls(State(AccPass(m, p), []), p, rate, env);
    DeltaPassOnce(State(AccPass(m, p), []), p, rate, env);
  }

  /** After a read the keys are the old ones and those of the records that
      are not fresh: fresh records never touch the map. */
  lemma ReadKeys(m: Entries, p: seq<MemProfileRecord>, rate: int, env: Env)
    ensures Read(m, p, rate, env).m.Keys == m.Keys + KeysOf(p)
  {
    AccPassMeaning(m, p);
    DeltaPassKeys(State(AccPass(m, p), []), p, rate, env);
  }

  /** A negative delta leaves everything as it was: no call, the entry
      neither re-baselined nor cleared, and handling the record again changes
      nothing either. */
  lemma NegativeDeltaStale(s: State, r: MemProfileRecord, rate: int, env: Env)
    requires !Fresh(r) && Find(s.m, KeyOf(r)).acc != ZeroAcc
    requires Find(s.m, KeyOf(r)).acc.allocObjects < Find(s.m, KeyOf(r)).prev
    ensures var t := DeltaStep(s, r, rate, env);
      t.calls == s.calls && (forall k :: Find(t.m, k) == Find(s.m, k)) && DeltaStep(t, r, rate, env) == t
  {
    var t := DeltaStep(s, r, rate, env);
    assert t.m == s.m[KeyOf(r) := Find(s.m, KeyOf(r))];
  }

  /** An emitting record moves its baseline to the accumulated count; the
      sample holds the scaled advance of the baseline with its bytes, then
      the scaled accumulated in-use objects with theirs; with no scaling and
      a non-zero block size the first values are exactly the advance and its
      bytes. */
  lemma BaselineAdvances(s: State, r: MemProfileRecord, rate: int, env: Env)
    requires Emits(s.m, r, rate, env.poisson)
    ensures var t := DeltaStep(s, r, rate, env);
      var e, e' := Find(s.m, KeyOf(r)), Find(t.m, KeyOf(r));
      var smp := t.calls[|t.calls| - 1];
      e' == HeapEntry(e.acc.allocObjects, ZeroAcc) && smp.Sample? && smp.blockSize == BlockSize(r)
      && smp.values != [0, 0, 0, 0] && |smp.values| == 4
      && (var d := e'.prev - e.prev;
          (smp.values[0], smp.values[1]) == ScaleHeapSample(d, d * BlockSize(r), rate, env.poisson))
      && (smp.values[2], smp.values[3])
           == ScaleHeapSample(e.acc.inuseObjects, e.acc.inuseObjects * BlockSize(r), rate, env.poisson)
      && (rate <= 1 && BlockSize(r) != 0 && e'.prev != e.prev ==>
            smp.values[0] == e'.prev - e.prev && smp.values[1] == smp.values[0] * BlockSize(r))
  {
  }

  /** The pass leaves no Build call and no header in the log. */
  lemma NoBuild(m: Entries, p: seq<MemProfileRecord>, rate: int, env: Env)
    ensures Build !in Read(m, p, rate, env).calls
  {
    DeltaPassCalls(State(AccPass(m, p), []), p, rate, env);
    var t := Read(m, p, rate, env);
    assert forall i :: 0 <= i < |t.calls| ==> t.calls[i] != Build;
  }

  /** HeapProfileConfig: space/bytes sampled at rate, four sample types and
      no default sample type. */
  function HeapProfileConfig(rate: int): (c: Proto.ProfileConfig)
    ensures c.period == rate && c.defaultSampleType == ""
    ensures c.periodType == Proto.ValueType("space", "bytes")
    ensures c.sampleTypes == [Proto.ValueType("alloc_objects", "count"), Proto.ValueType("alloc_space", "bytes"),
                              Proto.ValueType("inuse_objects", "count"), Proto.ValueType("inuse_space", "bytes")]
  {
    Proto.ProfileConfig(Proto.ValueType("space", "bytes"), rate,
                        [Proto.ValueType("alloc_objects", "count"), Proto.ValueType("alloc_space", "bytes"),
                         Proto.ValueType("inuse_objects", "count"), Proto.ValueType("inuse_space", "bytes")], "")
  }

  /** The profiler: profMap as a map from key to entry. */
  class DeltaHeapProfiler {
    var m: Entries

    constructor ()
      ensures m == map[]
    {
      m := map[];
    }

    /** profMap.Lookup: the entry for k, created zero on first lookup. */
    method Lookup(k: Key) returns (e: HeapEntry)
      modifies this`m
      ensures e == Find(old(m), k) && m == old(m)[k := e]
    {
      if k in m {
        e := m[k];
      } else {
        e := ZeroEntry;
      }
      m := m[k := e];
    }

    /** WriteHeapProto: the two passes, then Build; the calls are those made
        on the builder, in order. */
    method WriteHeapProto(p: seq<MemProfileRecord>, rate: int, env: Env) returns (calls: seq<Call>)
      modifies this`m
      ensures var t := Read(old(m), p, rate, env);
        m == t.m && calls == t.calls + [Build]
    {
      ghost var m0 := m;
      var i := 0;
      while i < |p|
        invariant 0 <= i <= |p| && m == AccPass(m0, p[..i])
      {
        AccRecord(p[i]);
        assert p[..i + 1][..i] == p[..i];
        i := i + 1;
      }
      assert p[..|p|] == p;
      ghost var a := m;
      calls := [];
      i := 0;
      while i < |p|
        invariant 0 <= i <= |p| && State(m, calls) == DeltaPass(State(a, []), p[..i], rate, env)
      {
        calls := DeltaRecord(p[i], rate, env, calls);
        assert p[..i + 1][..i] == p[..i];
        i := i + 1;
      }
      calls := calls + [Build];
    }

    /** The body of the first loop. */
    method AccRecord(r: MemProfileRecord)
      modifies this`m
      ensures m == AccStep(old(m), r)
    {
      if r.allocBytes == 0 && r.allocObjects == 0 && r.freeObjects == 0 && r.freeBytes == 0 {
        return;
      }
      var blockSize := 0;
      if r.allocObjects > 0 {
        blockSize := Quot(r.allocBytes, r.allocObjects);
      }
      var k := Key(Stack(r.stack0), blockSize);
      var entry := Lookup(k);
      entry := entry.(acc := HeapAcc(entry.acc.allocObjects + r.allocObjects,
                                     entry.acc.inuseObjects + InUseObjects(r)));
      m := m[k := entry];
    }

    /** The body of the second loop. */
    method DeltaRecord(r: MemProfileRecord, rate: int, env: Env, calls0: seq<Call>) returns (calls: seq<Call>)
      modifies this`m
      ensures State(m, calls) == DeltaStep(State(old(m), calls0), r, rate, env)
    {
      calls := calls0;
      if r.allocBytes == 0 && r.allocObjects == 0 && r.freeObjects == 0 && r.freeBytes == 0 {
        return;
      }
      var blockSize := 0;
      if r.allocObjects > 0 {
        blockSize := Quot(r.allocBytes, r.allocObjects);
      }
      var k := Key(Stack(r.stack0), blockSize);
      var entry := Lookup(k);
      if entry.acc == ZeroAcc {
        return;
      }
      var allocObjects := entry.acc.allocObjects - entry.prev;
      if allocObjects < 0 {
        return;
      }
      var allocBytes := allocObjects * blockSize;
      ghost var e0 := entry;
      entry := entry.(prev := entry.acc.allocObjects);
      var alloc := ScaleHeapSample(allocObjects, allocBytes, rate, env.poisson);
      var inuse := ScaleHeapSample(entry.acc.inuseObjects, entry.acc.inuseObjects * blockSize, rate, env.poisson);
      var values := [alloc.0, alloc.1, inuse.0, inuse.1];
      entry := entry.(acc := ZeroAcc);
      m := m[k := entry];
      assert values == Values(e0, blockSize, rate, env.poisson);
      if values[0] == 0 && values[1] == 0 && values[2] == 0 && values[3] == 0 {
        return;
      }
      var locs;
      locs, calls := LocsWithRetry(calls, Stack(r.stack0), env.isRuntime, env.locsFor);
      calls := calls + [Sample(values, locs, blockSize)];
    }
  }
}
