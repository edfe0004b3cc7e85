/** The older DeltaHeapProfiler of the delta package: one pass that writes
    the header itself, resolves every record's stack first, and then takes
    the delta of the raw counters against a (objects, bytes) baseline. The
    debugging output of the pp closure is left out. */
module LegacyDeltaHeap {
  import opened Runtime
  import opened DeltaCommon
  import opened Proto
  import opened DeltaHeap
  import opened DeltaMutex

  /** The header WriteHeapProto writes before the records. */
  function LegacyHeader(rate: int, defaultSampleType: string): seq<Call>
  {
    [Header(PeriodTypeField(ValueType("space", "bytes"))), Header(PeriodField(rate)),
     Header(SampleTypeField(ValueType("alloc_objects", "count"))), Header(SampleTypeField(ValueType("alloc_space", "bytes"))),
     Header(SampleTypeField(ValueType("inuse_objects", "count"))), Header(SampleTypeField(ValueType("inuse_space", "bytes")))]
    + (if defaultSampleType != "" then [Header(DefaultSampleTypeField(defaultSampleType))] else [])
  }

  /** The legacy header is the one HeapProfileConfig asks the newer builder
      for, with the default sample type given. */
  lemma LegacyHeaderAgrees(rate: int, defaultSampleType: string)
    ensures LegacyHeader(rate, defaultSampleType)
            == ConfigHeader(HeapProfileConfig(rate).(defaultSampleType := defaultSampleType))
  {
    var c := HeapProfileConfig(rate).(defaultSampleType := defaultSampleType);
    var h := ConfigHeader(c);
    assert h[2] == Header(SampleTypeField(c.sampleTypes[0]));
    assert h[3] == Header(SampleTypeField(c.sampleTypes[1]));
    assert h[4] == Header(SampleTypeField(c.sampleTypes[2]));
    assert h[5] == Header(SampleTypeField(c.sampleTypes[3]));
  }

  /** The object size when any object was counted (AllocObjects != 0). */
  function Size(r: MemProfileRecord): int
  {
    if r.allocObjects != 0 then Quot(r.allocBytes, r.allocObjects) else 0
  }

  datatype LState = LState(m: Counts, calls: seq<Call>)

  /** One record: its stack is resolved first; then a fresh record is
      skipped, a record whose raw AllocObjects is below the baseline is
      skipped with the baseline kept, and any other emits the raw deltas and
      the raw in-use counters, scaled, without a label (aux 0), unless all
      four are zero; the baseline becomes the raw counters. */
  function LegacyStep(s: LState, r: MemProfileRecord, rate: int, env: Env): LState
  {
    var res := Retry(s.calls, Stack(r.stack0), env.isRuntime, env.locsFor);
    if Fresh(r) then LState(s.m, res.calls)
    else
      var k := Key(Stack(r.stack0), Size(r));
      var e := FindCount(s.m, k);
      if r.allocObjects - e.v1 < 0 then LState(s.m[k := e], res.calls)
      else
        var m := s.m[k := Count(r.allocObjects, r.allocBytes)];
        var a := ScaleHeapSample(r.allocObjects - e.v1, r.allocBytes - e.v2, rate, env.poisson);
        var u := ScaleHeapSample(InUseObjects(r), InUseBytes(r), rate, env.poisson);
        var v := [a.0, a.1, u.0, u.1];
        if v == [0, 0, 0, 0] then LState(m, res.calls) else LState(m, res.calls + [Sample(v, res.locs, 0)])
  }

  function LegacyPass(s: LState, p: seq<MemProfileRecord>, rate: int, env: Env): LState
  {
    if p == [] then s else LegacyStep(LegacyPass(s, p[..|p| - 1], rate, env), p[|p| - 1], rate, env)
  }

  /** Stack resolution runs for every record, skipped or not: each record
      makes one or two LocsForStack calls and at most one Sample call, and
      nothing else is logged. */
  lemma {:induction false} LegacyResolvesAll(s: LState, p: seq<MemProfileRecord>, rate: int, env: Env)
    ensures var t := LegacyPass(s, p, rate, env);
      s.calls <= t.calls && Lookups(s.calls) + |p| <= Lookups(t.calls) <= Lookups(s.calls) + 2 * |p|
      && Samples(t.calls) <= Samples(s.calls) + |p|
      && forall i :: |s.calls| <= i < |t.calls| ==> t.calls[i].LocsForStack? || t.calls[i].Sample?
  {
    if p != [] {
      LegacyResolvesAll(s, p[..|p| - 1], rate, env);
      LegacyStepCalls(LegacyPass(s, p[..|p| - 1], rate, env), p[|p| - 1], rate, env);
    }
  }

  lemma LegacyStepCalls(u: LState, r: MemProfileRecord, rate: int, env: Env)
    ensures var t := LegacyStep(u, r, rate, env);
      u.calls <= t.calls && Lookups(u.calls) + 1 <= Lookups(t.calls) <= Lookups(u.calls) + 2
      && Samples(t.calls) <= Samples(u.calls) + 1
      && forall i :: |u.calls| <= i < |t.calls| ==> t.calls[i].LocsForStack? || t.calls[i].Sample?
  {
    var res := Retry(u.calls, Stack(r.stack0), env.isRuntime, env.locsFor);
    RetryShape(u.calls, Stack(r.stack0), env.isRuntime, env.locsFor);
    var t := LegacyStep(u, r, rate, env);
    if t.calls != res.calls {
      var smp := t.calls[|t.calls| - 1];
      assert t.calls == res.calls + [smp];
      CountsAppend(res.calls, [smp]);
      assert [smp][..0] == [];
    }
  }

  /** The baseline after one record: untouched for a fresh record, kept when
      the raw AllocObjects is below it, the raw (AllocObjects, AllocBytes)
      otherwise; no other key changes. */
  lemma LegacyBaseline(s: LState, r: MemProfileRecord, rate: int, env: Env)
    ensures var t := LegacyStep(s, r, rate, env);
      var k := Key(Stack(r.stack0), Size(r));
      var e := FindCount(s.m, k);
      (Fresh(r) ==> t.m == s.m)
      && (!Fresh(r) ==>
            k in t.m && (forall k' :: k' != k ==> FindCount(t.m, k') == FindCount(s.m, k'))
            && t.m[k] == (if r.allocObjects < e.v1 then e else Count(r.allocObjects, r.allocBytes)))
  {
  }

  /** What a legacy sample holds: four values, not all zero, and no label. */
  predicate LegacySampleOK(c: Call)
  {
    c.Sample? ==> c.blockSize == 0 && |c.values| == 4 && c.values != [0, 0, 0, 0]
  }

  /** Every sample a legacy read emits is not all zeros and carries no
      label; the one emitted for a record holds the scaled deltas of the raw
      allocation counters against the old baseline, then the scaled raw
      in-use counters, and, when there is no scaling and the deltas are non-zero,
      exactly the raw deltas against the old baseline. */
  lemma LegacySample(s: LState, r: MemProfileRecord, rate: int, env: Env)
    ensures var t := LegacyStep(s, r, rate, env);
      Samples(t.calls) > Samples(Retry(s.calls, Stack(r.stack0), env.isRuntime, env.locsFor).calls) ==>
        var c := t.calls[|t.calls| - 1];
        var e := FindCount(s.m, Key(Stack(r.stack0), Size(r)));
        var u := ScaleHeapSample(InUseObjects(r), InUseBytes(r), rate, env.poisson);
        !Fresh(r) && e.v1 <= r.allocObjects && LegacySampleOK(c)
        && c.values[2] == u.0 && c.values[3] == u.1
        && (c.values[0], c.values[1]) == ScaleHeapSample(r.allocObjects - e.v1, r.allocBytes - e.v2, rate, env.poisson)
        && (rate <= 1 && r.allocObjects != e.v1 && r.allocBytes != e.v2 ==>
              c.values[0] == r.allocObjects - e.v1 && c.values[1] == r.allocBytes - e.v2)
  {
    var res := Retry(s.calls, Stack(r.stack0), env.isRuntime, env.locsFor);
    var t := LegacyStep(s, r, rate, env);
    if t.calls != res.calls {
      var smp := t.calls[|t.calls| - 1];
      assert t.calls == res.calls + [smp];
      CountsAppend(res.calls, [smp]);
      assert [smp][..0] == [];
    }
  }

  class LegacyDeltaHeapProfiler {
    var m: Counts

    constructor ()
      ensures m == map[]
    {
      m := map[];
    }

    /** profMap.Lookup: the entry for k, created zero on first lookup. */
    method Lookup(k: Key) returns (e: Count)
      modifies this`m
      ensures e == FindCount(old(m), k) && m == old(m)[k := e]
    {
      if k in m {
        e := m[k];
      } else {
        e := Count(0, 0);
      }
      m := m[k := e];
    }

    /** WriteHeapProto: the header, the pass over the records, then build. */
    method WriteHeapProto(p: seq<MemProfileRecord>, rate: int, defaultSampleType: string, env: Env)
      returns (calls: seq<Call>)
      modifies this`m
      ensures var t := LegacyPass(LState(old(m), LegacyHeader(rate, defaultSampleType)), p, rate, env);
        m == t.m && calls == t.calls + [Build]
    {
      calls := [Header(PeriodTypeField(ValueType("space", "bytes"))), Header(PeriodField(rate)),
                Header(SampleTypeField(ValueType("alloc_objects", "count"))),
                Header(SampleTypeField(ValueType("alloc_space", "bytes"))),
                Header(SampleTypeField(ValueType("inuse_objects", "count"))),
                Header(SampleTypeField(ValueType("inuse_space", "bytes")))];
      if defaultSampleType != "" {
        calls := calls + [Header(DefaultSampleTypeField(defaultSampleType))];
      }
      ghost var m0, h := m, calls;
      assert h == LegacyHeader(rate, defaultSampleType);
      var i := 0;
      while i < |p|
        invariant 0 <= i <= |p| && LState(m, calls) == LegacyPass(LState(m0, h), p[..i], rate, env)
      {
        calls := LegacyRecord(p[i], rate, env, calls);
        assert p[..i + 1][..i] == p[..i];
        i := i + 1;
      }
      assert p[..|p|] == p;
      calls := calls + [Build];
    }

    /** The loop body. */
    method LegacyRecord(r: MemProfileRecord, rate: int, env: Env, calls0: seq<Call>) returns (calls: seq<Call>)
      modifies this`m
      ensures LState(m, calls) == LegacyStep(LState(old(m), calls0), r, rate, env)
    {
      var locs;
      locs, calls := LocsWithRetry(calls0, Stack(r.stack0), env.isRuntime, env.locsFor);
      if r.allocBytes == 0 && r.allocObjects == 0 && r.freeObjects == 0 && r.freeBytes == 0 {
        return;
      }
      var size := 0;
      if r.allocObjects != 0 {
        size := Quot(r.allocBytes, r.allocObjects);
      }
      var entry := Lookup(Key(Stack(r.stack0), size));
      if r.allocObjects - entry.v1 < 0 {
        return;
      }
      var allocObjects := r.allocObjects - entry.v1;
      var allocBytes := r.allocBytes - entry.v2;
      entry := Count(r.allocObjects, r.allocBytes);
      m := m[Key(Stack(r.stack0), size) := entry];
      var alloc := ScaleHeapSample(allocObjects, allocBytes, rate, env.poisson);
      var inuse := ScaleHeapSample(InUseObjects(r), InUseBytes(r), rate, env.poisson);
      var values := [alloc.0, alloc.1, inuse.0, inuse.1];
      if values[0] == 0 && values[1] == 0 && values[2] == 0 && values[3] == 0 {
        return;
      }
      calls := calls + [Sample(values, locs, 0)];
    }
  }
}
