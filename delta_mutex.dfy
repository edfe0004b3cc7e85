/** The go1.20 mutex profile scaler: the runtime already scales mutex and
    block profiles, so the scaler hands its arguments back. */
module MutexScale {
  /** MutexProfileScaler: an empty struct. */
  datatype MutexProfileScaler = MutexProfileScaler

  const ScalerMutexProfile := MutexProfileScaler
  const ScalerBlockProfile := MutexProfileScaler

  /** scaleMutexProfile: the count and the nanoseconds (a floating-point
      value in Go, any type here) unchanged, whatever the scaler. */
  function ScaleMutexProfile<T>(s: MutexProfileScaler, cnt: int, ns: T): (r: (int, T))
    ensures r.0 == cnt && r.1 == ns
  {
    (cnt, ns)
  }

  /** The scaler argument does not influence the result. */
  lemma ScalerIrrelevant<T>(s1: MutexProfileScaler, s2: MutexProfileScaler, cnt: int, ns: T)
    ensures ScaleMutexProfile(s1, cnt, ns) == ScaleMutexProfile(s2, cnt, ns)
  {
  }

  /** The mutex and the block scaler are the same empty value. */
  lemma ScalersEqual()
    ensures ScalerMutexProfile == ScalerBlockProfile
  {
  }
}

/** DeltaMutexProfiler of godeltaprof: one pass over the block profile
    records, each looked up by its stack, emitting the change since the last
    read and re-baselining unconditionally. */
module DeltaMutex {
  import opened Runtime
  import opened DeltaCommon
  import opened MutexScale
  import Proto

  /** The entry of profMap: the count and nanoseconds of the last read. */
  datatype Count = Count(v1: int, v2: int)

  type Counts = map<Key, Count>

  /** The entry profMap.Lookup returns: the stored one, or a zero entry. */
  function FindCount(m: Counts, k: Key): Count
  {
    if k in m then m[k] else Count(0, 0)
  }

  /** Every record is looked up by its stack with aux 0. */
  function MutexKey(r: BlockProfileRecord): Key
  {
    Key(Stack(r.stack0), 0)
  }

  /** The scaled count and the integer nanoseconds of a record; nanos(c) is
      int64(float64(c) / cpuGHz), the conversion of cycles at the runtime's
      cycles per second. The scaler is the identity, so truncating before or
      after it is the same. */
  function Scaled(scaler: MutexProfileScaler, r: BlockProfileRecord, nanos: int -> int): Count
  {
    var sc := ScaleMutexProfile(scaler, r.count, nanos(r.cycles));
    Count(sc.0, sc.1)
  }

  datatype MState = MState(m: Counts, calls: seq<Call>)

  /** One record: the deltas against the baseline, the baseline overwritten
      before any check, and a sample (aux 0) unless a delta is negative or
      both are zero. */
  function MutexStep(s: MState, r: BlockProfileRecord, scaler: MutexProfileScaler, nanos: int -> int,
                     locsFor: Oracle): MState
  {
    var k := MutexKey(r);
    var e := FindCount(s.m, k);
    var c := Scaled(scaler, r, nanos);
    var v := [c.v1 - e.v1, c.v2 - e.v2];
    var m := s.m[k := c];
    if v[0] < 0 || v[1] < 0 || (v[0] == 0 && v[1] == 0) then MState(m, s.calls)
    else MState(m, s.calls + [LocsForStack(k.stk), Sample(v, locsFor(s.calls, k.stk), 0)])
  }

  function MutexPass(s: MState, rs: seq<BlockProfileRecord>, scaler: MutexProfileScaler, nanos: int -> int,
                     locsFor: Oracle): MState
  {
    if rs == [] then s
    else MutexStep(MutexPass(s, rs[..|rs| - 1], scaler, nanos, locsFor), rs[|rs| - 1], scaler, nanos, locsFor)
  }

  /** The reference for the baselines: the scaled values of the last record
      with key k, or d when there is none. */
  function LastScaled(rs: seq<BlockProfileRecord>, k: Key, d: Count, scaler: MutexProfileScaler, nanos: int -> int): Count
  {
    if rs == [] then d
    else if MutexKey(rs[|rs| - 1]) == k then Scaled(scaler, rs[|rs| - 1], nanos)
    else LastScaled(rs[..|rs| - 1], k, d, scaler, nanos)
  }

  /** Every emitted sample has two non-negative values, at least one of
      them positive, and aux 0. */
  predicate Positive(calls: seq<Call>)
  {
    forall i :: 0 <= i < |calls| && calls[i].Sample? ==>
      |calls[i].values| == 2 && calls[i].values[0] >= 0 && calls[i].values[1] >= 0
      && (calls[i].values[0] > 0 || calls[i].values[1] > 0) && calls[i].blockSize == 0
  }

  /** Each sample comes right after the lookup of its own stack; Build and
      header calls never appear. */
  predicate Paired(calls: seq<Call>)
  {
    (forall i :: 0 <= i < |calls| ==> calls[i].LocsForStack? || calls[i].Sample?)
    && forall i :: 0 <= i < |calls| && calls[i].Sample? ==> 0 < i && calls[i - 1].LocsForStack?
  }

  /** The baseline after the pass is the last record's scaled values,
      whatever the deltas were: a negative delta still re-baselines. */
  lemma {:induction false} MutexPassBaseline(s: MState, rs: seq<BlockProfileRecord>, scaler: MutexProfileScaler,
                                             nanos: int -> int, locsFor: Oracle, k: Key)
    ensures FindCount(MutexPass(s, rs, scaler, nanos, locsFor).m, k) == LastScaled(rs, k, FindCount(s.m, k), scaler, nanos)
    ensures k in MutexPass(s, rs, scaler, nanos, locsFor).m <==> k in s.m || exists i :: 0 <= i < |rs| && MutexKey(rs[i]) == k
  {
    if rs != [] {
      var init := rs[..|rs| - 1];
      MutexPassBaseline(s, init, scaler, nanos, locsFor, k);
      if k !in s.m && MutexKey(rs[|rs| - 1]) != k {
        if exists i :: 0 <= i < |rs| && MutexKey(rs[i]) == k {
          var i :| 0 <= i < |rs| && MutexKey(rs[i]) == k;
          assert init[i] == rs[i];
        }
      }
    }
  }

  /** Every sample the pass emits is non-negative with a positive value and
      aux 0, right after its stack's lookup. */
  lemma {:induction false} MutexPassPositive(s: MState, rs: seq<BlockProfileRecord>, scaler: MutexProfileScaler,
                                             nanos: int -> int, locsFor: Oracle)
    requires Positive(s.calls) && Paired(s.calls)
    ensures var t := MutexPass(s, rs, scaler, nanos, locsFor);
      Positive(t.calls) && Paired(t.calls) && s.calls <= t.calls
  {
    if rs != [] {
      MutexPassPositive(s, rs[..|rs| - 1], scaler, nanos, locsFor);
    }
  }

  /** A map that already holds every record's scaled values is a fixed
      point: the pass leaves it and emits nothing. */
  lemma {:induction false} MutexPassFixed(m: Counts, c: seq<Call>, rs: seq<BlockProfileRecord>, scaler: MutexProfileScaler,
                                          nanos: int -> int, locsFor: Oracle)
    requires forall i :: 0 <= i < |rs| ==> MutexKey(rs[i]) in m && m[MutexKey(rs[i])] == Scaled(scaler, rs[i], nanos)
    ensures MutexPass(MState(m, c), rs, scaler, nanos, locsFor) == MState(m, c)
  {
    if rs != [] {
      var init := rs[..|rs| - 1];
      assert forall i :: 0 <= i < |init| ==> init[i] == rs[i];
      MutexPassFixed(m, c, init, scaler, nanos, locsFor);
      assert m[MutexKey(rs[|rs| - 1]) := Scaled(scaler, rs[|rs| - 1], nanos)] == m;
    }
  }

  /** With distinct stacks each record's key ends at that record's values. */
  lemma {:induction false} LastScaledDistinct(rs: seq<BlockProfileRecord>, j: nat, d: Count, scaler: MutexProfileScaler,
                                              nanos: int -> int)
    requires j < |rs| && forall a, b :: 0 <= a < b < |rs| ==> MutexKey(rs[a]) != MutexKey(rs[b])
    ensures LastScaled(rs, MutexKey(rs[j]), d, scaler, nanos) == Scaled(scaler, rs[j], nanos)
  {
    if j < |rs| - 1 {
      var init := rs[..|rs| - 1];
      assert forall a :: 0 <= a < |init| ==> init[a] == rs[a];
      LastScaledDistinct(init, j, d, scaler, nanos);
    }
  }

  /** One record logs a sample exactly when neither delta against its
      baseline is negative and not both are zero; the sample holds those two
      deltas, aux 0 and the locations the builder gives for the record's
      stack, right after that stack's lookup; the baseline becomes the
      record's values either way. */
  lemma MutexStepSample(s: MState, r: BlockProfileRecord, scaler: MutexProfileScaler, nanos: int -> int,
                        locsFor: Oracle)
    ensures var t := MutexStep(s, r, scaler, nanos, locsFor);
      var k, c := MutexKey(r), Scaled(scaler, r, nanos);
      var d1, d2 := c.v1 - FindCount(s.m, k).v1, c.v2 - FindCount(s.m, k).v2;
      t.m == s.m[k := c]
      && (t.calls != s.calls <==> d1 >= 0 && d2 >= 0 && (d1 != 0 || d2 != 0))
      && (t.calls != s.calls ==>
            t.calls == s.calls + [LocsForStack(k.stk), Sample([d1, d2], locsFor(s.calls, k.stk), 0)])
  {
  }

  /** The reference log of a read: every record compared with the baseline
      that the read started from, in record order. */
  function DeltaCalls(m0: Counts, c: seq<Call>, rs: seq<BlockProfileRecord>, scaler: MutexProfileScaler,
                      nanos: int -> int, locsFor: Oracle): seq<Call>
  {
    if rs == [] then c
    else
      var c' := DeltaCalls(m0, c, rs[..|rs| - 1], scaler, nanos, locsFor);
      var k, x := MutexKey(rs[|rs| - 1]), Scaled(scaler, rs[|rs| - 1], nanos);
      var d1, d2 := x.v1 - FindCount(m0, k).v1, x.v2 - FindCount(m0, k).v2;
      if d1 >= 0 && d2 >= 0 && (d1 != 0 || d2 != 0)
      then c' + [LocsForStack(k.stk), Sample([d1, d2], locsFor(c', k.stk), 0)]
      else c'
  }

  /** A key no record has keeps the default. */
  lemma {:induction false} LastScaledAbsent(rs: seq<BlockProfileRecord>, k: Key, d: Count, scaler: MutexProfileScaler,
                                            nanos: int -> int)
    requires forall i :: 0 <= i < |rs| ==> MutexKey(rs[i]) != k
    ensures LastScaled(rs, k, d, scaler, nanos) == d
  {
    if rs != [] {
      var init := rs[..|rs| - 1];
      assert forall i :: 0 <= i < |init| ==> init[i] == rs[i];
      LastScaledAbsent(init, k, d, scaler, nanos);
    }
  }

  /** With distinct stacks the pass logs exactly the reference log: each
      record's sample holds its change since the previous read. */
  lemma {:induction false} MutexPassDeltas(s: MState, rs: seq<BlockProfileRecord>, scaler: MutexProfileScaler,
                                           nanos: int -> int, locsFor: Oracle)
    requires forall a, b :: 0 <= a < b < |rs| ==> MutexKey(rs[a]) != MutexKey(rs[b])
    ensures MutexPass(s, rs, scaler, nanos, locsFor).calls == DeltaCalls(s.m, s.calls, rs, scaler, nanos, locsFor)
  {
    if rs != [] {
      var init, r := rs[..|rs| - 1], rs[|rs| - 1];
      assert forall a :: 0 <= a < |init| ==> init[a] == rs[a];
      MutexPassDeltas(s, init, scaler, nanos, locsFor);
      MutexPassBaseline(s, init, scaler, nanos, locsFor, MutexKey(r));
      LastScaledAbsent(init, MutexKey(r), FindCount(s.m, MutexKey(r)), scaler, nanos);
      MutexStepSample(MutexPass(s, init, scaler, nanos, locsFor), r, scaler, nanos, locsFor);
    }
  }

  /** Reading the same records again, with distinct stacks, emits no sample
      and leaves the baselines as they are. */
  lemma RereadEmitsNothing(m: Counts, rs: seq<BlockProfileRecord>, scaler: MutexProfileScaler, nanos: int -> int,
                           locsFor: Oracle, c: seq<Call>)
    requires forall a, b :: 0 <= a < b < |rs| ==> MutexKey(rs[a]) != MutexKey(rs[b])
    ensures var t := MutexPass(MState(m, []), rs, scaler, nanos, locsFor);
      MutexPass(MState(t.m, c), rs, scaler, nanos, locsFor) == MState(t.m, c)
  {
    var t := MutexPass(MState(m, []), rs, scaler, nanos, locsFor);
    forall i | 0 <= i < |rs|
      ensures MutexKey(rs[i]) in t.m && t.m[MutexKey(rs[i])] == Scaled(scaler, rs[i], nanos)
    {
      MutexPassBaseline(MState(m, []), rs, scaler, nanos, locsFor, MutexKey(rs[i]));
      LastScaledDistinct(rs, i, FindCount(m, MutexKey(rs[i])), scaler, nanos);
    }
    MutexPassFixed(t.m, c, rs, scaler, nanos, locsFor);
  }

  /** MutexProfileConfig: contentions/count with period 1, and the sample
      types contentions/count and delay/nanoseconds. */
  function MutexProfileConfig(): (c: Proto.ProfileConfig)
    ensures c.periodType == Proto.ValueType("contentions", "count") && c.period == 1
    ensures c.sampleTypes == [Proto.ValueType("contentions", "count"), Proto.ValueType("delay", "nanoseconds")]
    ensures c.defaultSampleType == ""
  {
    Proto.ProfileConfig(Proto.ValueType("contentions", "count"), 1,
                        [Proto.ValueType("contentions", "count"), Proto.ValueType("delay", "nanoseconds")], "")
  }

  class DeltaMutexProfiler {
    var m: Counts

    constructor ()
      ensures m == map[]
    {
      m := map[];
    }

    /** profMap.Lookup: the entry for k, created zero on first lookup. */
    method Lookup(k: Key) returns (e: Count)
      modifies this`m
      ensures e == FindCount(old(m), k) && m == old(m)[k := e]
    {
      if k in m {
        e := m[k];
      } else {
        e := Count(0, 0);
      }
      m := m[k := e];
    }

    /** PrintCountCycleProfile: the pass over the records, then Build. */
    method PrintCountCycleProfile(scaler: MutexProfileScaler, records: seq<BlockProfileRecord>, nanos: int -> int,
                                  locsFor: Oracle) returns (calls: seq<Call>)
      modifies this`m
      ensures var t := MutexPass(MState(old(m), []), records, scaler, nanos, locsFor);
        m == t.m && calls == t.calls + [Build]
    {
      ghost var m0 := m;
      calls := [];
      var i := 0;
      while i < |records|
        invariant 0 <= i <= |records|
        invariant MState(m, calls) == MutexPass(MState(m0, []), records[..i], scaler, nanos, locsFor)
      {
        calls := MutexRecord(scaler, records[i], nanos, locsFor, calls);
        assert records[..i + 1][..i] == records[..i];
        i := i + 1;
      }
      assert records[..|records|] == records;
      calls := calls + [Build];
    }

    /** The loop body. */
    method MutexRecord(scaler: MutexProfileScaler, r: BlockProfileRecord, nanos: int -> int, locsFor: Oracle,
                       calls0: seq<Call>) returns (calls: seq<Call>)
      modifies this`m
      ensures MState(m, calls) == MutexStep(MState(old(m), calls0), r, scaler, nanos, locsFor)
    {
      calls := calls0;
      var sc := ScaleMutexProfile(scaler, r.count, nanos(r.cycles));
      var count, inanosec := sc.0, sc.1;
      var k := Key(Stack(r.stack0), 0);
      var entry := Lookup(k);
      var values := [count - entry.v1, inanosec - entry.v2];
      entry := Count(count, inanosec);
      m := m[k := entry];
      if values[0] < 0 || values[1] < 0 {
        return;
      }
      if values[0] == 0 && values[1] == 0 {
        return;
      }
      var locs := locsFor(calls, Stack(r.stack0));
      calls := calls + [LocsForStack(Stack(r.stack0)), Sample(values, locs, 0)];
    }
  }
}
