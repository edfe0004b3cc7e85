/** What the delta profilers share: the runtime's profile records, the
    zero-trimmed stack, Go's truncating division, the calls a delta profiler
    makes on its profile builder, the retry that hides runtime frames, and the
    branch structure of the heap sample scaling. */
module DeltaCommon {
  import opened Runtime
  import Proto

  /** runtime.MemProfileRecord: cumulative counters of one allocation site;
      stack0 is the fixed-size Stack0 array. */
  datatype MemProfileRecord = MemProfileRecord(allocBytes: int, freeBytes: int, allocObjects: int,
                                               freeObjects: int, stack0: seq<Addr>)

  /** runtime.BlockProfileRecord: a contention count, the cycles spent, and the
      stack. */
  datatype BlockProfileRecord = BlockProfileRecord(count: int, cycles: int, stack0: seq<Addr>)

  function InUseObjects(r: MemProfileRecord): int
  {
    r.allocObjects - r.freeObjects
  }

  function InUseBytes(r: MemProfileRecord): int
  {
    r.allocBytes - r.freeBytes
  }

  /** A bucket none of whose four counters has moved yet. */
  predicate Fresh(r: MemProfileRecord)
  {
    r.allocBytes == 0 && r.allocObjects == 0 && r.freeObjects == 0 && r.freeBytes == 0
  }

  /** stack (and the runtime's StackRecord.Stack): the addresses before the
      first zero, or all of them when there is none. */
  function Stack(stk: seq<Addr>): (r: seq<Addr>)
    ensures r <= stk && 0 !in r
    ensures |r| < |stk| ==> stk[|r|] == 0
  {
    if stk == [] || stk[0] == 0 then [] else [stk[0]] + Stack(stk[1..])
  }

  /** Go's integer division, which truncates toward zero where Dafny's is
      Euclidean (int64 overflow is not modelled). */
  function Quot(a: int, b: int): (q: int)
    requires b != 0
    ensures 0 <= a && 0 < b ==> q == a / b
    ensures a < 0 && 0 < b ==> q == -((-a) / b)
    ensures var r, m := a - q * b, if b < 0 then -b else b;
      -m < r < m && (r == 0 || (r < 0 <==> a < 0))
  {
    var n, d := if a < 0 then -a else a, if b < 0 then -b else b;
    if (a < 0) == (b < 0) then n / d else -(n / d)
  }

  /** The key of the profiler's entry map: the trimmed stack and the aux
      value (the block size for heap profiles, 0 for mutex profiles). */
  datatype Key = Key(stk: seq<Addr>, aux: int)

  /** The header fields the legacy heap profiler writes directly. */
  datatype HeaderField =
    | PeriodTypeField(vt: Proto.ValueType)
    | PeriodField(period: int)
    | SampleTypeField(vt: Proto.ValueType)
    | DefaultSampleTypeField(name: string)

  /** A call a delta profiler makes on its profile builder. */
  datatype Call =
    | Header(field: HeaderField)
    | LocsForStack(stk: seq<Addr>)
    | Sample(values: seq<int>, locs: seq<nat>, blockSize: int)
    | Build

  /** The location ids the builder returns for a stack, given every call made
      on it before; the builder's own state (tables, runtime symbolization)
      is abstracted into this function. */
  type Oracle = (seq<Call>, seq<Addr>) -> seq<nat>

  /** The header fields a ProfileConfig asks for, in the order the builder
      writes them: the default sample type only when it is not "". */
  function ConfigHeader(c: Proto.ProfileConfig): (r: seq<Call>)
    ensures |r| == 2 + |c.sampleTypes| + (if c.defaultSampleType != "" then 1 else 0)
    ensures r[0] == Header(PeriodTypeField(c.periodType)) && r[1] == Header(PeriodField(c.period))
    ensures forall i :: 0 <= i < |c.sampleTypes| ==> r[2 + i] == Header(SampleTypeField(c.sampleTypes[i]))
    ensures c.defaultSampleType != "" ==> r[|r| - 1] == Header(DefaultSampleTypeField(c.defaultSampleType))
  {
    [Header(PeriodTypeField(c.periodType)), Header(PeriodField(c.period))]
    + SampleTypeFields(c.sampleTypes)
    + (if c.defaultSampleType != "" then [Header(DefaultSampleTypeField(c.defaultSampleType))] else [])
  }

  function SampleTypeFields(vts: seq<Proto.ValueType>): (r: seq<Call>)
    ensures |r| == |vts| && forall i :: 0 <= i < |vts| ==> r[i] == Header(SampleTypeField(vts[i]))
  {
    if vts == [] then [] else SampleTypeFields(vts[..|vts| - 1]) + [Header(SampleTypeField(vts[|vts| - 1]))]
  }

  /** The number of Sample calls in a log. */
  function Samples(calls: seq<Call>): nat
  {
    if calls == [] then 0 else Samples(calls[..|calls| - 1]) + (if calls[|calls| - 1].Sample? then 1 else 0)
  }

  /** The number of LocsForStack calls in a log. */
  function Lookups(calls: seq<Call>): nat
  {
    if calls == [] then 0 else Lookups(calls[..|calls| - 1]) + (if calls[|calls| - 1].LocsForStack? then 1 else 0)
  }

  lemma {:induction false} CountsAppend(a: seq<Call>, b: seq<Call>)
    ensures Samples(a + b) == Samples(a) + Samples(b) && Lookups(a + b) == Lookups(a) + Lookups(b)
    decreases |b|
  {
    if b != [] {
      var b' := b[..|b| - 1];
      var x := b[|b| - 1];
      assert a + b == (a + b') + [x];
      assert (a + b)[..|a + b| - 1] == a + b';
      CountsAppend(a, b');
      assert Samples(a + b) == Samples(a + b') + (if x.Sample? then 1 else 0);
      assert Samples(b) == Samples(b') + (if x.Sample? then 1 else 0);
    } else {
      assert a + b == a;
    }
  }

  /** The index of the first address that is not a runtime function's, or
      |stk| when all are; isRuntime(addr) is "FuncForPC(addr) is not nil and
      its name starts with runtime.". */
  function FirstNonRuntime(stk: seq<Addr>, isRuntime: Addr -> bool): (i: nat)
    ensures i <= |stk| && (forall j :: 0 <= j < i ==> isRuntime(stk[j]))
    ensures i < |stk| ==> !isRuntime(stk[i])
  {
    if stk == [] || !isRuntime(stk[0]) then 0 else 1 + FirstNonRuntime(stk[1..], isRuntime)
  }

  /** The stack with its leading runtime frames dropped; left whole when it
      has no other frame. */
  function HideRuntime(stk: seq<Addr>, isRuntime: Addr -> bool): seq<Addr>
  {
    var i := FirstNonRuntime(stk, isRuntime);
    if i < |stk| then stk[i..] else stk
  }

  /** The hide-runtime inner loop: scans for the first non-runtime address
      and keeps the stack from there. */
  method TrimRuntime(stk: seq<Addr>, isRuntime: Addr -> bool) returns (r: seq<Addr>)
    ensures r == HideRuntime(stk, isRuntime)
    ensures (forall a :: a in stk ==> isRuntime(a)) ==> r == stk
    ensures r != stk ==> !isRuntime(r[0]) && exists i :: 0 < i < |stk| && r == stk[i..]
  {
    r := stk;
    var i := 0;
    while i < |stk|
      invariant 0 <= i <= |stk| && forall j :: 0 <= j < i ==> isRuntime(stk[j])
    {
      if isRuntime(stk[i]) {
        i := i + 1;
        continue;
      }
      r := stk[i..];
      break;
    }
    assert i == FirstNonRuntime(stk, isRuntime) by {
      FirstNonRuntimeUnique(stk, isRuntime, i);
    }
    if r != stk {
      assert i > 0;
    }
  }

  lemma FirstNonRuntimeUnique(stk: seq<Addr>, isRuntime: Addr -> bool, i: nat)
    requires i <= |stk| && (forall j :: 0 <= j < i ==> isRuntime(stk[j])) && (i < |stk| ==> !isRuntime(stk[i]))
    ensures i == FirstNonRuntime(stk, isRuntime)
  {
  }

  datatype Resolved = Resolved(locs: seq<nat>, calls: seq<Call>)

  /** The heap profilers' two tries at resolving a stack: first with the
      leading runtime frames hidden, then, when that gives no locations, the
      whole stack. */
  function Retry(calls: seq<Call>, stk: seq<Addr>, isRuntime: Addr -> bool, locsFor: Oracle): Resolved
  {
    var s := HideRuntime(stk, isRuntime);
    var first := locsFor(calls, s);
    var c1 := calls + [LocsForStack(s)];
    if |first| > 0 then Resolved(first, c1)
    else Resolved(locsFor(c1, stk), c1 + [LocsForStack(stk)])
  }

  /** Retry makes one or two LocsForStack calls and nothing else: the second,
      with the whole stack, only when the first returned no ids. */
  lemma RetryShape(calls: seq<Call>, stk: seq<Addr>, isRuntime: Addr -> bool, locsFor: Oracle)
    ensures var r := Retry(calls, stk, isRuntime, locsFor);
      var s := HideRuntime(stk, isRuntime);
      calls < r.calls && r.calls[|calls|] == LocsForStack(s)
      && (|r.calls| == |calls| + 1 <==> |locsFor(calls, s)| > 0)
      && (|r.calls| == |calls| + 1 || (|r.calls| == |calls| + 2 && r.calls[|calls| + 1] == LocsForStack(stk)))
      && Samples(r.calls) == Samples(calls) && Lookups(calls) < Lookups(r.calls) <= Lookups(calls) + 2
      && Build !in r.calls[|calls|..]
  {
    var r := Retry(calls, stk, isRuntime, locsFor);
    var s := HideRuntime(stk, isRuntime);
    var c1 := calls + [LocsForStack(s)];
    CountsAppend(calls, [LocsForStack(s)]);
    CountsAppend(c1, [LocsForStack(stk)]);
    assert [LocsForStack(s)][..0] == [];
    assert [LocsForStack(stk)][..0] == [];
  }

  /** The tries loop of the heap profilers' WriteHeapProto: hideRuntime
      starts true and is cleared after a try that returned no ids. */
  method LocsWithRetry(calls0: seq<Call>, stk0: seq<Addr>, isRuntime: Addr -> bool, locsFor: Oracle)
    returns (locs: seq<nat>, calls: seq<Call>)
    ensures Resolved(locs, calls) == Retry(calls0, stk0, isRuntime, locsFor)
  {
    calls := calls0;
    locs := [];
    var hideRuntime := true;
    var tries := 0;
    while tries < 2
      invariant 0 <= tries <= 2 && (hideRuntime <==> tries == 0)
      invariant tries == 0 ==> calls == calls0
      invariant tries == 1 ==>
        calls == calls0 + [LocsForStack(HideRuntime(stk0, isRuntime))]
        && |locsFor(calls0, HideRuntime(stk0, isRuntime))| == 0
      invariant tries == 2 ==> Resolved(locs, calls) == Retry(calls0, stk0, isRuntime, locsFor)
    {
      var stk := stk0;
      if hideRuntime {
        stk := TrimRuntime(stk, isRuntime);
      }
      locs := locsFor(calls, stk);
      calls := calls + [LocsForStack(stk)];
      if |locs| > 0 {
        break;
      }
      hideRuntime := false;
      tries := tries + 1;
    }
  }

  /** ScaleHeapSample (and the legacy scaleHeapSample): zero when either
      input is zero, unchanged when the rate is at most 1, and otherwise the
      Poisson estimate, whose floating-point computation is the parameter
      poisson. */
  function ScaleHeapSample(count: int, size: int, rate: int, poisson: (int, int, int) -> (int, int)): (r: (int, int))
    ensures count == 0 || size == 0 ==> r == (0, 0)
    ensures count != 0 && size != 0 && rate <= 1 ==> r == (count, size)
    ensures r == (0, 0) && rate <= 1 ==> count == 0 || size == 0
  {
    if count == 0 || size == 0 then (0, 0)
    else if rate <= 1 then (count, size)
    else poisson(count, size, rate)
  }
}
