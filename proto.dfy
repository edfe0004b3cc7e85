/** The pprof profile builder of godeltaprof (proto.go): it interns strings,
    the location cache and function ids, attributes locations to memory
    mappings and encodes the profile. The protobuf encoding and the gzip
    stream are abstract: the builder appends whole messages, with string
    fields as string-table indices, to its pending buffer, and flushing moves
    the buffer to the written stream. */
module Proto {
  import opened Mapping
  import opened Runtime
  import opened Deck
  import opened Locations

  datatype ValueType = ValueType(typ: string, unit: string)

  /** ProfileConfig: the header a delta profiler asks the builder for. */
  datatype ProfileConfig = ProfileConfig(periodType: ValueType, period: int,
                                         sampleTypes: seq<ValueType>, defaultSampleType: string)

  datatype Line = Line(functionId: nat, line: int)
  datatype Label = Label(key: nat, str: nat, num: int)

  /** The profile.proto messages and fields the builder writes. */
  datatype Message =
    | PeriodTypeMsg(typ: nat, unit: nat)
    | PeriodMsg(period: int)
    | SampleTypeMsg(typ: nat, unit: nat)
    | DefaultSampleTypeMsg(index: nat)
    | SampleMsg(values: seq<int>, locationIds: seq<nat>, labels: seq<Label>)
    | LocationMsg(id: nat, address: Addr, lines: seq<Line>, mappingId: nat)
    | FunctionMsg(id: nat, name: nat, systemName: nat, filename: nat, startLine: int)
    | TimeNanosMsg(time: int)
    | MappingMsg(id: nat, memoryStart: nat, memoryLimit: nat, fileOffset: nat,
                 filename: nat, buildId: nat, hasFunctions: bool)
    | StringTableMsg(table: seq<string>)

  /** strings[i] is s. */
  ghost predicate Resolves(strings: seq<string>, i: nat, s: string)
  {
    i < |strings| && strings[i] == s
  }

  /** The string table and its index agree: "" is at 0, every indexed string
      is in the table under its index, and every entry of the table is
      indexed under its own position, so each string is listed once. */
  ghost predicate StringsValid(strings: seq<string>, stringMap: map<string, nat>)
  {
    |strings| > 0 && strings[0] == ""
    && (forall s :: s in stringMap ==> stringMap[s] < |strings| && strings[stringMap[s]] == s)
    && (forall i :: 0 <= i < |strings| ==> strings[i] in stringMap && stringMap[strings[i]] == i)
  }

  /** Function ids are 1, 2, ... in order of first occurrence: all in
      1..|funcs| and pairwise distinct. */
  ghost predicate FuncsValid(funcs: map<string, nat>)
  {
    (forall k :: k in funcs ==> 1 <= funcs[k] <= |funcs|)
    && (forall k1, k2 :: k1 in funcs && k2 in funcs && k1 != k2 ==> funcs[k1] != funcs[k2])
  }

  /** A Function message still to be written, recorded during frame expansion. */
  datatype NewFunc = NewFunc(id: nat, name: string, file: string, startLine: int)

  datatype FuncPass = FuncPass(funcs: map<string, nat>, lines: seq<Line>, newFuncs: seq<NewFunc>)

  /** emitLocation's loop over the deck's frames: each frame becomes a Line
      whose function is looked up by symbol name (FuncStep). */
  function FuncPassOf(funcs: map<string, nat>, frames: seq<Frame>, generics: bool): FuncPass
  {
    if frames == [] then FuncPass(funcs, [], [])
    else FuncStep(FuncPassOf(funcs, frames[..|frames| - 1], generics), frames[|frames| - 1], generics)
  }

  /** One frame of the pass: an unknown (or zero) id gets |funcs| + 1 and
      records a new function, named by the symbol name when generic frames
      are on and by frame.Function otherwise. */
  function FuncStep(p: FuncPass, f: Frame, generics: bool): FuncPass
  {
    var key := f.symbolName;
    var found := if key in p.funcs then p.funcs[key] else 0;
    if found != 0 then FuncPass(p.funcs, p.lines + [Line(found, f.line)], p.newFuncs)
    else
      var id := |p.funcs| + 1;
      FuncPass(p.funcs[key := id], p.lines + [Line(id, f.line)],
               p.newFuncs + [NewFunc(id, if generics then key else f.funcName, f.file, f.startLine)])
  }

  ghost predicate FuncsExtend(funcs2: map<string, nat>, funcs1: map<string, nat>)
  {
    forall k :: k in funcs1 ==> k in funcs2 && funcs2[k] == funcs1[k]
  }

  /** One frame keeps the ids valid and every known id, appends the Line
      with the id now registered for the frame's symbol, and records at most
      one new function, with the next id. */
  lemma FuncStepKeeps(p: FuncPass, f: Frame, generics: bool)
    requires FuncsValid(p.funcs)
    ensures var r := FuncStep(p, f, generics);
      FuncsValid(r.funcs) && FuncsExtend(r.funcs, p.funcs)
      && f.symbolName in r.funcs && r.lines == p.lines + [Line(r.funcs[f.symbolName], f.line)]
      && ((|r.funcs| == |p.funcs| && r.newFuncs == p.newFuncs)
          || (|r.funcs| == |p.funcs| + 1 && |r.newFuncs| == |p.newFuncs| + 1
              && r.newFuncs[..|p.newFuncs|] == p.newFuncs && r.newFuncs[|p.newFuncs|].id == |p.funcs| + 1))
  {
    var key := f.symbolName;
    var r := FuncStep(p, f, generics);
    if !(key in p.funcs && p.funcs[key] != 0) {
      var id := |p.funcs| + 1;
      assert key !in p.funcs;
      assert r.funcs == p.funcs[key := id];
      forall k | k in r.funcs ensures 1 <= r.funcs[k] <= |r.funcs| {
        if k != key { assert r.funcs[k] == p.funcs[k]; }
      }
    }
  }

  /** The frame pass keeps ids 1-based and distinct, never renumbers a known
      function, gives every frame's Line the id now registered for its symbol
      name, and numbers the new functions |funcs| + 1, |funcs| + 2, ..., one
      per introducing frame, each with that frame's name, file and start
      line. */
  lemma FuncPassMeaning(funcs: map<string, nat>, frames: seq<Frame>, generics: bool)
    requires FuncsValid(funcs)
    ensures var p := FuncPassOf(funcs, frames, generics);
      FuncsValid(p.funcs) && FuncsExtend(p.funcs, funcs)
      && |p.lines| == |frames| && |p.funcs| == |funcs| + |p.newFuncs|
      && (forall j :: 0 <= j < |frames| ==>
            frames[j].symbolName in p.funcs && p.lines[j] == Line(p.funcs[frames[j].symbolName], frames[j].line))
      && (forall k :: 0 <= k < |p.newFuncs| ==> p.newFuncs[k].id == |funcs| + 1 + k)
      && p.funcs.Keys == funcs.Keys + Symbols(frames)
      && var fs := Introducers(funcs, frames);
      |p.newFuncs| == |fs| && forall k :: 0 <= k < |fs| ==> p.newFuncs[k] == NewFuncFor(fs[k], |funcs| + 1 + k, generics)
  {
    FuncPassShape(funcs, frames, generics);
    FuncPassLines(funcs, frames, generics);
    FuncPassNew(funcs, frames, generics);
    FuncPassKeys(funcs, frames, generics);
  }

  /** The symbol names of a run of frames. */
  ghost function Symbols(frames: seq<Frame>): set<string>
  {
    if frames == [] then {} else Symbols(frames[..|frames| - 1]) + {frames[|frames| - 1].symbolName}
  }

  /** The frames that introduce a function funcs does not know yet: the
      first frame with each new symbol name, in frame order. */
  ghost function Introducers(funcs: map<string, nat>, frames: seq<Frame>): seq<Frame>
  {
    if frames == [] then []
    else
      var init, f := frames[..|frames| - 1], frames[|frames| - 1];
      Introducers(funcs, init) + (if f.symbolName in funcs || f.symbolName in Symbols(init) then [] else [f])
  }

  /** The function recorded for frame f under id: named by the symbol name
      when generic frames are on and by frame.Function otherwise, with the
      frame's file and start line. */
  function NewFuncFor(f: Frame, id: nat, generics: bool): NewFunc
  {
    NewFunc(id, if generics then f.symbolName else f.funcName, f.file, f.startLine)
  }

  /** The frame pass records one function per introducing frame, in order,
      with that frame's name, file and start line. */
  lemma {:induction false} FuncPassNew(funcs: map<string, nat>, frames: seq<Frame>, generics: bool)
    requires FuncsValid(funcs)
    ensures var p, fs := FuncPassOf(funcs, frames, generics), Introducers(funcs, frames);
      |p.newFuncs| == |fs|
      && forall k :: 0 <= k < |fs| ==>
           p.newFuncs[k] == NewFuncFor(fs[k], |funcs| + 1 + k, generics)
  {
    if frames != [] {
      var init, f := frames[..|frames| - 1], frames[|frames| - 1];
      FuncPassNew(funcs, init, generics);
      var p := FuncPassOf(funcs, init, generics);
      var fs := Introducers(funcs, init);
      assert |p.funcs| == |funcs| + |fs| && (f.symbolName in p.funcs <==> f.symbolName in funcs || f.symbolName in Symbols(init))
          && (f.symbolName in p.funcs ==> p.funcs[f.symbolName] != 0) by {
        FuncPassShape(funcs, init, generics);
        FuncPassKeys(funcs, init, generics);
      }
      FuncStepNew(p, f, generics);
      if f.symbolName !in p.funcs {
        var fs' := fs + [f];
        assert Introducers(funcs, frames) == fs';
      } else {
        assert Introducers(funcs, frames) == fs;
      }
    }
  }

  /** One frame records a function exactly when its symbol name is new. */
  lemma FuncStepNew(p: FuncPass, f: Frame, generics: bool)
    requires f.symbolName in p.funcs ==> p.funcs[f.symbolName] != 0
    ensures FuncStep(p, f, generics).newFuncs
      == if f.symbolName in p.funcs then p.newFuncs else p.newFuncs + [NewFuncFor(f, |p.funcs| + 1, generics)]
  {
  }

  /** After the frame pass the known names are the old ones and the frames'
      symbol names. */
  lemma {:induction false} FuncPassKeys(funcs: map<string, nat>, frames: seq<Frame>, generics: bool)
    ensures FuncPassOf(funcs, frames, generics).funcs.Keys == funcs.Keys + Symbols(frames)
  {
    if frames != [] {
      var init := frames[..|frames| - 1];
      FuncPassKeys(funcs, init, generics);
      FuncStepKeys(FuncPassOf(funcs, init, generics), frames[|frames| - 1], generics);
    }
  }

  /** One frame registers its symbol name and no other. */
  lemma FuncStepKeys(p: FuncPass, f: Frame, generics: bool)
    ensures FuncStep(p, f, generics).funcs.Keys == p.funcs.Keys + {f.symbolName}
  {
  }

  /** The id bookkeeping of the frame pass. */
  lemma {:induction false} FuncPassShape(funcs: map<string, nat>, frames: seq<Frame>, generics: bool)
    requires FuncsValid(funcs)
    ensures var p := FuncPassOf(funcs, frames, generics);
      FuncsValid(p.funcs) && FuncsExtend(p.funcs, funcs)
      && |p.lines| == |frames| && |p.funcs| == |funcs| + |p.newFuncs|
      && (forall k :: 0 <= k < |p.newFuncs| ==> p.newFuncs[k].id == |funcs| + 1 + k)
  {
    if frames != [] {
      var init := frames[..|frames| - 1];
      FuncPassShape(funcs, init, generics);
      var p := FuncPassOf(funcs, init, generics);
      FuncStepKeeps(p, frames[|frames| - 1], generics);
      var r := FuncPassOf(funcs, frames, generics);
      forall k | 0 <= k < |r.newFuncs| ensures r.newFuncs[k].id == |funcs| + 1 + k {
        if k < |p.newFuncs| {
          assert r.newFuncs[k] == r.newFuncs[..|p.newFuncs|][k];
        }
      }
    }
  }

  /** Every frame's Line carries the id its symbol name has after the pass. */
  lemma {:induction false} FuncPassLines(funcs: map<string, nat>, frames: seq<Frame>, generics: bool)
    requires FuncsValid(funcs)
    ensures var p := FuncPassOf(funcs, frames, generics);
      |p.lines| == |frames|
      && forall j :: 0 <= j < |frames| ==>
           frames[j].symbolName in p.funcs && p.lines[j] == Line(p.funcs[frames[j].symbolName], frames[j].line)
  {
    if frames != [] {
      var init := frames[..|frames| - 1];
      FuncPassLines(funcs, init, generics);
      FuncPassShape(funcs, init, generics);
      var p := FuncPassOf(funcs, init, generics);
      FuncStepKeeps(p, frames[|frames| - 1], generics);
      var r := FuncPassOf(funcs, frames, generics);
      assert r == FuncStep(p, frames[|frames| - 1], generics);
      forall j | 0 <= j < |frames|
        ensures frames[j].symbolName in r.funcs && r.lines[j] == Line(r.funcs[frames[j].symbolName], frames[j].line)
      {
        if j < |init| {
          assert frames[j] == init[j] && r.lines[j] == p.lines[j];
          assert r.funcs[init[j].symbolName] == p.funcs[init[j].symbolName];
        }
      }
    }
  }

  /** A location at addr belongs to mapping m when m covers it or is fake. */
  predicate Covers(m: MemMap, addr: Addr)
  {
    m.start <= addr < m.end || m.fake
  }

  /** The index of the first mapping covering addr, or |mem| when none does. */
  function FirstMatch(mem: seq<MemMap>, addr: Addr): (i: nat)
    ensures i <= |mem|
    ensures i < |mem| ==> Covers(mem[i], addr)
    ensures forall j :: 0 <= j < i ==> !Covers(mem[j], addr)
  {
    if mem == [] then 0
    else if Covers(mem[0], addr) then 0
    else 1 + FirstMatch(mem[1..], addr)
  }

  /** The mappings after a location at addr with flag sr is attributed: the
      first covering mapping has sr OR-ed into its funcs. */
  function Attributed(mem: seq<MemMap>, addr: Addr, sr: SymbolizeFlag): seq<MemMap>
  {
    var i := FirstMatch(mem, addr);
    if i < |mem| then mem[i := mem[i].(funcs := mem[i].funcs | sr)] else mem
  }

  /** allFrames flags: 0 (goexit), LookupTried, or LookupTried|LookupFailed. */
  predicate IsFlag(f: SymbolizeFlag)
  {
    f == 0 || f == LookupTried || f == LookupTried | LookupFailed
  }

  function OrAll(flags: seq<SymbolizeFlag>): SymbolizeFlag
  {
    if flags == [] then 0 else OrAll(flags[..|flags| - 1]) | flags[|flags| - 1]
  }

  /** Build's HasFunctions test, funcs == lookupTried, on a mapping whose
      funcs is the OR of the flags of the locations attributed to it: true
      exactly when some location was looked up and none failed. */
  lemma {:induction false} HasFunctionsMeaning(flags: seq<SymbolizeFlag>)
    requires forall i :: 0 <= i < |flags| ==> IsFlag(flags[i])
    ensures IsFlag(OrAll(flags))
    ensures OrAll(flags) == 0 <==> forall i :: 0 <= i < |flags| ==> flags[i] == 0
    ensures OrAll(flags) == LookupTried <==>
      (exists i :: 0 <= i < |flags| && flags[i] == LookupTried)
      && (forall i :: 0 <= i < |flags| ==> flags[i] != LookupTried | LookupFailed)
  {
    if flags != [] {
      var init := flags[..|flags| - 1];
      HasFunctionsMeaning(init);
      var n := |flags| - 1;
      var last := flags[n];
      assert forall i :: 0 <= i < n ==> init[i] == flags[i];
      var o := OrAll(init);
      assert OrAll(flags) == o | last;
      if o == 0 {
        assert o | last == last;
      } else if o == LookupTried {
        assert o | last == (if last == LookupTried | LookupFailed then last else o);
        assert exists i :: 0 <= i < n && flags[i] == LookupTried;
      } else {
        assert o | last == o;
        assert exists i :: 0 <= i < n && flags[i] == LookupTried | LookupFailed;
      }
    }
  }

  /** What ReadMapping returns for the maps text data. */
  ghost predicate ReadFrom(mem: seq<MemMap>, data: string, buildID: string -> string)
  {
    (ParseAll(data, buildID) != [] ==> mem == ToMemMaps(ParseAll(data, buildID)))
    && (ParseAll(data, buildID) == [] ==> mem == [FakeMapping])
  }

  class ProfileBuilderOptions {
    var genericsFrames: bool
    var lazyMapping: bool
    var mem: array?<MemMap>

    constructor (genericsFrames: bool, lazyMapping: bool)
      ensures this.genericsFrames == genericsFrames && this.lazyMapping == lazyMapping && mem == null
    {
      this.genericsFrames := genericsFrames;
      this.lazyMapping := lazyMapping;
      mem := null;
    }

    /** Mapping: reads the mappings afresh unless lazy mapping is on and they
        were read before, and keeps what it returns. procMaps is the text of
        /proc/self/maps at the time of the call. */
    method Mapping(procMaps: string, buildID: string -> string) returns (m: array<MemMap>)
      modifies this`mem
      ensures mem == m
      ensures old(mem) == null || !lazyMapping ==> fresh(m) && ReadFrom(m[..], procMaps, buildID)
      ensures old(mem) != null && lazyMapping ==> m == old(mem)
    {
      if mem == null || !lazyMapping {
        mem := ReadMappingArray(procMaps, buildID);
      }
      m := mem;
    }
  }

  /** ReadMapping's entries in a new array, as the builder updates them in place. */
  method ReadMappingArray(procMaps: string, buildID: string -> string) returns (a: array<MemMap>)
    ensures fresh(a) && ReadFrom(a[..], procMaps, buildID)
  {
    var read := ReadMapping(procMaps, buildID);
    a := new MemMap[|read|](i requires 0 <= i < |read| => read[i]);
    assert a[..] == read;
  }

  /** The size above which flush hands the pending bytes to the writer. */
  const DataFlush := 4096

  /** A Function message for f whose string fields resolve in strings. */
  ghost predicate FunctionOK(m: Message, f: NewFunc, strings: seq<string>)
  {
    m.FunctionMsg? && m.id == f.id && m.startLine == f.startLine
    && Resolves(strings, m.name, f.name) && m.systemName == m.name && Resolves(strings, m.filename, f.file)
  }

  /** The mapping id a location at addr gets: index + 1 of the first
      covering mapping, 0 when none covers it. */
  function MappingIdOf(mem: seq<MemMap>, addr: Addr): nat
  {
    var i := FirstMatch(mem, addr);
    if i < |mem| then i + 1 else 0
  }

  /** The messages emitLocation encodes for a deck whose first frame is
      first: the Location with its Lines, then one Function message per
      function seen for the first time. */
  ghost predicate LocationMsgsOK(ms: seq<Message>, id: nat, first: Frame, lines: seq<Line>,
                                 newFuncs: seq<NewFunc>, mappingId: nat, strings: seq<string>)
  {
    |ms| == 1 + |newFuncs| && ms[0] == LocationMsg(id, first.pc, lines, mappingId)
    && forall k :: 0 <= k < |newFuncs| ==> FunctionOK(ms[1 + k], newFuncs[k], strings)
  }

  lemma LocationMsgsIntro(loc: Message, fs: seq<Message>, id: nat, first: Frame, lines: seq<Line>,
                          newFuncs: seq<NewFunc>, mappingId: nat, strings: seq<string>)
    requires loc == LocationMsg(id, first.pc, lines, mappingId) && |fs| == |newFuncs|
    requires forall k :: 0 <= k < |newFuncs| ==> FunctionOK(fs[k], newFuncs[k], strings)
    ensures LocationMsgsOK([loc] + fs, id, first, lines, newFuncs, mappingId, strings)
  {
    assert forall k :: 0 <= k < |fs| ==> ([loc] + fs)[1 + k] == fs[k];
  }

  /** m is a ValueType message of the given kind naming vt. */
  ghost predicate ValueTypeOK(m: Message, vt: ValueType, strings: seq<string>, periodType: bool)
  {
    (if periodType then m.PeriodTypeMsg? else m.SampleTypeMsg?)
    && Resolves(strings, m.typ, vt.typ) && Resolves(strings, m.unit, vt.unit)
  }

  /** The header NewProfileBuilder writes for stc. */
  ghost predicate HeaderOK(log: seq<Message>, stc: ProfileConfig, strings: seq<string>)
  {
    var n := |stc.sampleTypes|;
    |log| == 2 + n + (if stc.defaultSampleType != "" then 1 else 0)
    && ValueTypeOK(log[0], stc.periodType, strings, true)
    && log[1] == PeriodMsg(stc.period)
    && (forall k :: 0 <= k < n ==> ValueTypeOK(log[2 + k], stc.sampleTypes[k], strings, false))
    && (stc.defaultSampleType != "" ==>
          log[2 + n].DefaultSampleTypeMsg? && Resolves(strings, log[2 + n].index, stc.defaultSampleType))
  }

  /** A Sample message for values and locs, labelled "bytes" = blockSize when
      the block size is not zero. */
  ghost predicate SampleOK(m: Message, values: seq<int>, locs: seq<nat>, blockSize: int, strings: seq<string>)
  {
    m.SampleMsg? && m.values == values && m.locationIds == locs
    && (blockSize == 0 ==> m.labels == [])
    && (blockSize != 0 ==>
          |m.labels| == 1 && m.labels[0].num == blockSize
          && Resolves(strings, m.labels[0].key, "bytes") && Resolves(strings, m.labels[0].str, ""))
  }

  /** The Mapping message for mapping m at index k: id k + 1 and
      HasFunctions exactly when its flag is LookupTried alone. */
  ghost predicate MappingOK(msg: Message, k: nat, m: MemMap, strings: seq<string>)
  {
    msg.MappingMsg? && msg.id == k + 1 && msg.memoryStart == m.start && msg.memoryLimit == m.end
    && msg.fileOffset == m.offset && Resolves(strings, msg.filename, m.file)
    && Resolves(strings, msg.buildId, m.buildID) && (msg.hasFunctions <==> m.funcs == LookupTried)
  }

  /** Indices keep resolving as the string table grows. */
  lemma ValueTypeGrows(m: Message, vt: ValueType, s1: seq<string>, s2: seq<string>, periodType: bool)
    requires ValueTypeOK(m, vt, s1, periodType) && s1 <= s2
    ensures ValueTypeOK(m, vt, s2, periodType)
  {
  }

  lemma FunctionGrows(m: Message, f: NewFunc, s1: seq<string>, s2: seq<string>)
    requires FunctionOK(m, f, s1) && s1 <= s2
    ensures FunctionOK(m, f, s2)
  {
  }

  lemma MappingGrows(msg: Message, k: nat, m: MemMap, s1: seq<string>, s2: seq<string>)
    requires MappingOK(msg, k, m, s1) && s1 <= s2
    ensures MappingOK(msg, k, m, s2)
  {
  }

  /** The function ids after emitLocation ran on each of the decks, in order. */
  ghost function FuncsAfter(funcs: map<string, nat>, decks: seq<DeckState>, generics: bool): map<string, nat>
  {
    if decks == [] then funcs
    else FuncPassOf(FuncsAfter(funcs, decks[..|decks| - 1], generics), decks[|decks| - 1].frames, generics).funcs
  }

  /** The mappings after each of the decks was attributed, in order. */
  ghost function MemAfter(mem: seq<MemMap>, decks: seq<DeckState>): seq<MemMap>
  {
    if decks == [] then mem
    else
      var d, m := decks[|decks| - 1], MemAfter(mem, decks[..|decks| - 1]);
      if d.pcs == [] then m else Attributed(m, d.pcs[0], d.symbolizeResult)
  }

  /** Emitting a + b is emitting a and then b. */
  lemma {:induction false} FuncsAfterAppend(funcs: map<string, nat>, a: seq<DeckState>, b: seq<DeckState>, generics: bool)
    ensures FuncsAfter(funcs, a + b, generics) == FuncsAfter(FuncsAfter(funcs, a, generics), b, generics)
    decreases |b|
  {
    if b == [] {
      assert a + b == a;
    } else {
      assert (a + b)[..|a + b| - 1] == a + b[..|b| - 1];
      FuncsAfterAppend(funcs, a, b[..|b| - 1], generics);
    }
  }

  lemma {:induction false} MemAfterAppend(mem: seq<MemMap>, a: seq<DeckState>, b: seq<DeckState>)
    ensures MemAfter(mem, a + b) == MemAfter(MemAfter(mem, a), b)
    decreases |b|
  {
    if b == [] {
      assert a + b == a;
    } else {
      assert (a + b)[..|a + b| - 1] == a + b[..|b| - 1];
      MemAfterAppend(mem, a, b[..|b| - 1]);
    }
  }

  /** A step that emits no deck leaves the ids and the mappings as they
      were, and one that emits the deck d runs the pass over it: either way,
      what the decks so far and the step's together leave. */
  lemma AfterStep(f0: map<string, nat>, m0: seq<MemMap>, prev: seq<DeckState>, ds: seq<DeckState>, d: DeckState,
                  f1: map<string, nat>, m1: seq<MemMap>, f2: map<string, nat>, m2: seq<MemMap>, generics: bool)
    requires f1 == FuncsAfter(f0, prev, generics) && m1 == MemAfter(m0, prev)
    requires ds == [] || ds == DeckList(d)
    requires ds == [] ==> f2 == f1 && m2 == m1
    requires ds != [] ==> d.pcs != [] && f2 == FuncPassOf(f1, d.frames, generics).funcs
                          && m2 == Attributed(m1, d.pcs[0], d.symbolizeResult)
    ensures f2 == FuncsAfter(f0, prev + ds, generics) && m2 == MemAfter(m0, prev + ds)
  {
    AfterDeck(f1, m1, d, generics);
    FuncsAfterAppend(f0, prev, ds, generics);
    MemAfterAppend(m0, prev, ds);
  }

  /** Emitting DeckList(d): nothing for an empty deck, otherwise one pass. */
  lemma AfterDeck(funcs: map<string, nat>, mem: seq<MemMap>, d: DeckState, generics: bool)
    ensures d.pcs == [] ==> FuncsAfter(funcs, DeckList(d), generics) == funcs && MemAfter(mem, DeckList(d)) == mem
    ensures d.pcs != [] ==>
      FuncsAfter(funcs, DeckList(d), generics) == FuncPassOf(funcs, d.frames, generics).funcs
      && MemAfter(mem, DeckList(d)) == Attributed(mem, d.pcs[0], d.symbolizeResult)
  {
    assert [d][..0] == [];
  }

  /** NewProfileBuilder: the mappings from opt.Mapping, shared with opt, and
      a builder around them with the header for stc written. */
  method NewProfileBuilder(opt: ProfileBuilderOptions, stc: ProfileConfig, procMaps: string,
                           buildID: string -> string, start: int, encodedSize: seq<Message> -> nat)
    returns (b: ProfileBuilder)
    modifies opt`mem
    ensures fresh(b) && fresh(b.deck) && b.Valid() && b.opt == opt && b.start == start
    ensures b.encodedSize == encodedSize && opt.mem == b.mem
    ensures old(opt.mem) == null || !opt.lazyMapping ==> fresh(b.mem) && ReadFrom(b.mem[..], procMaps, buildID)
    ensures old(opt.mem) != null && opt.lazyMapping ==> b.mem == old(opt.mem)
    ensures b.locs == map[] && b.funcs == map[] && b.deck.State() == EmptyDeck
    ensures b.written == [] && HeaderOK(b.pending, stc, b.strings)
  {
    var m := opt.Mapping(procMaps, buildID);
    b := new ProfileBuilder(opt, m, stc, start, encodedSize);
  }

  /** Appending to a log that extends another one. */
  lemma Chain<T>(o: seq<T>, a: seq<T>, b: seq<T>, e0: seq<T>, e1: seq<T>)
    requires e0 == o + a && e1 == e0 + b
    ensures e1 == o + (a + b)
  {
  }

  /** Appending to the second half of a log. */
  lemma Regroup<T>(o: seq<T>, a: seq<T>, b: seq<T>, e0: seq<T>, e1: seq<T>)
    requires e0 == o + a && e1 == o + (a + b)
    ensures e1 == e0 + b
  {
  }

  class ProfileBuilder {
    const start: int
    const opt: ProfileBuilderOptions
    /** The mappings, shared with opt.mem. */
    const mem: array<MemMap>
    const deck: PCDeck
    /** The encoded length of a run of messages. */
    const encodedSize: seq<Message> -> nat
    var strings: seq<string>
    var stringMap: map<string, nat>
    var locs: Locs
    var funcs: map<string, nat>
    /** Encoded but not yet written (b.pb.data). */
    var pending: seq<Message>
    /** Handed to the gzip writer. */
    var written: seq<Message>
    /** Everything encoded so far, in order. */
    ghost function Emitted(): seq<Message>
      reads this`written, this`pending
    {
      written + pending
    }

    ghost predicate Valid()
      reads this`strings, this`stringMap, this`locs, this`funcs, deck
    {
      StringsValid(strings, stringMap) && WalkInv(locs, deck.State(), 1) && FuncsValid(funcs)
    }

    /** The builder NewProfileBuilder makes around the mappings mem: an
        empty cache, a string table holding only "", and the header for stc:
        period type, period, sample types in order and the default sample
        type when it is not empty. */
    constructor (opt: ProfileBuilderOptions, mem: array<MemMap>, stc: ProfileConfig,
                 start: int, encodedSize: seq<Message> -> nat)
      ensures Valid() && fresh(deck) && this.opt == opt && this.mem == mem && this.start == start
      ensures this.encodedSize == encodedSize
      ensures locs == map[] && funcs == map[] && deck.State() == EmptyDeck
      ensures written == [] && HeaderOK(pending, stc, strings)
    {
      this.opt := opt;
      this.start := start;
      this.encodedSize := encodedSize;
      this.mem := mem;
      deck := new PCDeck();
      strings := [""];
      stringMap := map["" := 0];
      locs := map[];
      funcs := map[];
      pending := [];
      written := [];
      new;
      WriteHeader(stc);
    }

    /** The header of NewProfileBuilder, written to an empty buffer. */
    method WriteHeader(stc: ProfileConfig)
      requires StringsValid(strings, stringMap) && pending == []
      modifies this`strings, this`stringMap, this`pending
      ensures StringsValid(strings, stringMap) && HeaderOK(pending, stc, strings)
    {
      var m0 := EncodeValueType(stc.periodType, true);
      Encode(PeriodMsg(stc.period));
      ghost var s1, p1 := strings, pending;
      var ms := WriteSampleTypes(stc.sampleTypes);
      ValueTypeGrows(m0, stc.periodType, s1, strings, true);
      assert pending[0] == m0 && pending[1] == PeriodMsg(stc.period) by {
        assert pending == p1 + ms;
      }
      if stc.defaultSampleType != "" {
        ghost var s2, p2 := strings, pending;
        var d := StringIndex(stc.defaultSampleType);
        Encode(DefaultSampleTypeMsg(d));
        ValueTypeGrows(m0, stc.periodType, s2, strings, true);
        forall k | 0 <= k < |stc.sampleTypes|
          ensures ValueTypeOK(pending[2 + k], stc.sampleTypes[k], strings, false)
        {
          assert pending[2 + k] == p2[2 + k];
          ValueTypeGrows(p2[2 + k], stc.sampleTypes[k], s2, strings, false);
        }
      }
    }

    /** pbValueType: a ValueType message naming vt. */
    method EncodeValueType(vt: ValueType, periodType: bool) returns (m: Message)
      requires StringsValid(strings, stringMap)
      modifies this`strings, this`stringMap, this`pending
      ensures StringsValid(strings, stringMap) && old(strings) <= strings
      ensures pending == old(pending) + [m] && ValueTypeOK(m, vt, strings, periodType)
    {
      var t := StringIndex(vt.typ);
      var u := StringIndex(vt.unit);
      m := if periodType then PeriodTypeMsg(t, u) else SampleTypeMsg(t, u);
      Encode(m);
    }

    /** The loop over stc.SampleType: one SampleType message each, in order. */
    method WriteSampleTypes(sts: seq<ValueType>) returns (ms: seq<Message>)
      requires StringsValid(strings, stringMap)
      modifies this`strings, this`stringMap, this`pending
      ensures StringsValid(strings, stringMap) && old(strings) <= strings
      ensures pending == old(pending) + ms && |ms| == |sts|
      ensures forall k :: 0 <= k < |sts| ==> ValueTypeOK(ms[k], sts[k], strings, false)
    {
      ms := [];
      var i := 0;
      while i < |sts|
        invariant 0 <= i <= |sts| && |ms| == i
        invariant StringsValid(strings, stringMap) && old(strings) <= strings
        invariant pending == old(pending) + ms
        invariant forall k :: 0 <= k < i ==> ValueTypeOK(ms[k], sts[k], strings, false)
      {
        ghost var s0, ms0 := strings, ms;
        var m := EncodeValueType(sts[i], false);
        ms := ms + [m];
        forall k | 0 <= k < i ensures ValueTypeOK(ms[k], sts[k], strings, false) {
          assert ms[k] == ms0[k];
          ValueTypeGrows(ms0[k], sts[k], s0, strings, false);
        }
        i := i + 1;
      }
    }

    /** Appends one whole message to the pending buffer. */
    method Encode(m: Message)
      modifies this`pending
      ensures pending == old(pending) + [m]
    {
      pending := pending + [m];
    }

    /** stringIndex: the index of s, appending s to the table when it is new;
        the table only grows, so earlier indices keep resolving. */
    method StringIndex(s: string) returns (i: nat)
      requires StringsValid(strings, stringMap)
      modifies this`strings, this`stringMap
      ensures StringsValid(strings, stringMap) && Resolves(strings, i, s) && old(strings) <= strings
      ensures s in old(stringMap) ==> i == old(stringMap)[s] && strings == old(strings)
      ensures s !in old(stringMap) ==> i == |old(strings)| && strings == old(strings) + [s]
    {
      if s in stringMap {
        i := stringMap[s];
      } else {
        i := |strings|;
        strings := strings + [s];
        stringMap := stringMap[s := i];
      }
    }

    /** flush: hands the pending buffer to the writer once it holds more than
        DataFlush bytes; what was encoded does not change. */
    method Flush()
      modifies this`pending, this`written
      ensures encodedSize(old(pending)) > DataFlush ==> written == old(written) + old(pending) && pending == []
      ensures encodedSize(old(pending)) <= DataFlush ==> written == old(written) && pending == old(pending)
      ensures Emitted() == old(Emitted())
    {
      if encodedSize(pending) > DataFlush {
        written := written + pending;
        pending := pending[..0];
        assert Emitted() == old(written) + old(pending);
      }
    }

    /** Sample: a Sample message with the values and location ids and, for a
        non-zero block size, the label "bytes" = blockSize; then flush. */
    method Sample(values: seq<int>, locIds: seq<nat>, blockSize: int) returns (ghost m: Message)
      requires StringsValid(strings, stringMap)
      modifies this`strings, this`stringMap, this`pending, this`written
      ensures StringsValid(strings, stringMap) && old(strings) <= strings
      ensures Emitted() == old(Emitted()) + [m] && SampleOK(m, values, locIds, blockSize, strings)
    {
      var labels := [];
      if blockSize != 0 {
        var k := StringIndex("bytes");
        var v := StringIndex("");
        labels := [Label(k, v, blockSize)];
      }
      var msg := SampleMsg(values, locIds, labels);
      Encode(msg);
      m := msg;
      assert Emitted() == old(Emitted()) + [m];
      Flush();
    }

    /** emitLocation's frame loop: FuncPassOf, computed in place on funcs. */
    method RecordFunctions(frames: seq<Frame>) returns (lines: seq<Line>, newFuncs: seq<NewFunc>)
      requires FuncsValid(funcs)
      modifies this`funcs
      ensures FuncPass(funcs, lines, newFuncs) == FuncPassOf(old(funcs), frames, opt.genericsFrames)
      ensures FuncsValid(funcs)
    {
      lines, newFuncs := [], [];
      var i := 0;
      while i < |frames|
        invariant 0 <= i <= |frames|
        invariant FuncPass(funcs, lines, newFuncs) == FuncPassOf(old(funcs), frames[..i], opt.genericsFrames)
      {
        ghost var p0 := FuncPass(funcs, lines, newFuncs);
        var frame := frames[i];
        var funcName := frame.symbolName;
        var funcID := if funcName in funcs then funcs[funcName] else 0;
        if funcID == 0 {
          funcID := |funcs| + 1;
          funcs := funcs[funcName := funcID];
          var name := if opt.genericsFrames then funcName else frame.funcName;
          newFuncs := newFuncs + [NewFunc(funcID, name, frame.file, frame.startLine)];
        }
        lines := lines + [Line(funcID, frame.line)];
        assert FuncPass(funcs, lines, newFuncs) == FuncStep(p0, frame, opt.genericsFrames);
        assert frames[..i + 1][..i] == frames[..i];
        i := i + 1;
      }
      assert frames[..|frames|] == frames;
      FuncPassMeaning(old(funcs), frames, opt.genericsFrames);
    }

    /** emitLocation's mapping loop: the first mapping covering addr gets id
        index + 1 and has sr OR-ed into its flag; 0 when none covers it. */
    method AttributeMapping(addr: Addr, sr: SymbolizeFlag) returns (mappingId: nat)
      modifies mem
      ensures var i := FirstMatch(old(mem[..]), addr);
        mappingId == (if i < mem.Length then i + 1 else 0) && mem[..] == Attributed(old(mem[..]), addr, sr)
    {
      mappingId := 0;
      var i := 0;
      while i < mem.Length
        invariant 0 <= i <= mem.Length && mem[..] == old(mem[..])
        invariant forall j :: 0 <= j < i ==> !Covers(mem[j], addr)
      {
        if (mem[i].start <= addr && addr < mem[i].end) || mem[i].fake {
          mappingId := i + 1;
          var m := mem[i];
          m := m.(funcs := m.funcs | sr);
          mem[i] := m;
          return;
        }
        i := i + 1;
      }
    }

    /** One Function message: the name interned twice (name and system
        name), then the file. */
    method EncodeFunction(fn: NewFunc) returns (m: Message)
      requires StringsValid(strings, stringMap)
      modifies this`strings, this`stringMap, this`pending
      ensures StringsValid(strings, stringMap) && old(strings) <= strings
      ensures pending == old(pending) + [m] && FunctionOK(m, fn, strings)
    {
      var name := StringIndex(fn.name);
      var systemName := StringIndex(fn.name);
      var filename := StringIndex(fn.file);
      m := FunctionMsg(fn.id, name, systemName, filename, fn.startLine);
      Encode(m);
    }

    /** emitLocation's last loop: one Function message per new function, in order. */
    method WriteFunctions(newFuncs: seq<NewFunc>) returns (ms: seq<Message>)
      requires StringsValid(strings, stringMap)
      modifies this`strings, this`stringMap, this`pending
      ensures StringsValid(strings, stringMap) && old(strings) <= strings
      ensures pending == old(pending) + ms && |ms| == |newFuncs|
      ensures forall k :: 0 <= k < |newFuncs| ==> FunctionOK(ms[k], newFuncs[k], strings)
    {
      ms := [];
      var i := 0;
      while i < |newFuncs|
        invariant 0 <= i <= |newFuncs| && |ms| == i
        invariant StringsValid(strings, stringMap) && old(strings) <= strings
        invariant pending == old(pending) + ms
        invariant forall k :: 0 <= k < i ==> FunctionOK(ms[k], newFuncs[k], strings)
      {
        ghost var s0, ms0 := strings, ms;
        var m := EncodeFunction(newFuncs[i]);
        ms := ms + [m];
        forall k | 0 <= k < i ensures FunctionOK(ms[k], newFuncs[k], strings) {
          assert ms[k] == ms0[k];
          FunctionGrows(ms0[k], newFuncs[k], s0, strings);
        }
        i := i + 1;
      }
    }

    /** The bookkeeping of emitLocation for a non-empty deck d: caches d as
        location |locs| + 1 under its first PC, records the functions of its
        frames and attributes it to a mapping. */
    method RecordLocation(d: DeckState) returns (id: nat, lines: seq<Line>, newFuncs: seq<NewFunc>, mappingId: nat)
      requires d.pcs != [] && DeckInv(d) && FuncsValid(funcs)
      modifies this`locs, this`funcs, mem
      ensures FuncsValid(funcs)
      ensures var e := Locations.Emit(old(locs), d, 1); locs == e.locs && e.ids == [id]
      ensures FuncPass(funcs, lines, newFuncs) == FuncPassOf(old(funcs), d.frames, opt.genericsFrames)
      ensures mem[..] == Attributed(old(mem[..]), d.pcs[0], d.symbolizeResult)
      ensures mappingId == MappingIdOf(old(mem[..]), d.pcs[0])
    {
      var addr := d.pcs[0];
      id := |locs| + 1;
      locs := locs[addr := LocInfo(id, d.pcs, d.frames[..d.firstPCFrames], d.firstPCSymbolizeResult)];
      lines, newFuncs := RecordFunctions(d.frames);
      mappingId := AttributeMapping(addr, d.symbolizeResult);
    }

    /** The encoding part of emitLocation: the Location message, then the
        Function messages. */
    method EncodeLocation(id: nat, first: Frame, lines: seq<Line>, newFuncs: seq<NewFunc>, mappingId: nat)
      returns (ghost ms: seq<Message>)
      requires StringsValid(strings, stringMap)
      modifies this`strings, this`stringMap, this`pending
      ensures StringsValid(strings, stringMap) && old(strings) <= strings
      ensures pending == old(pending) + ms && LocationMsgsOK(ms, id, first, lines, newFuncs, mappingId, strings)
    {
      var loc := LocationMsg(id, first.pc, lines, mappingId);
      Encode(loc);
      var fs := WriteFunctions(newFuncs);
      ms := [loc] + fs;
      assert pending == old(pending) + ms by {
        assert pending == (old(pending) + [loc]) + fs;
      }
      LocationMsgsIntro(loc, fs, id, first, lines, newFuncs, mappingId, strings);
    }

    /** emitLocation: nothing on an empty deck; otherwise EmitDeck, and the
        deck is reset. */
    method EmitLocation() returns (id: nat, ghost ms: seq<Message>)
      requires Valid()
      modifies this`locs, this`funcs, this`strings, this`stringMap, this`pending, this`written, deck, mem
      ensures Valid() && deck.State() == EmptyDeck && old(strings) <= strings
      ensures Emitted() == old(Emitted()) + ms
      ensures var e := Locations.Emit(old(locs), old(deck.State()), 1);
        locs == e.locs && (e.ids == [] ==> id == 0) && (e.ids != [] ==> e.ids == [id])
      ensures var d := old(deck.State()); d.pcs == [] ==>
        ms == [] && funcs == old(funcs) && strings == old(strings) && mem[..] == old(mem[..])
      ensures var d := old(deck.State()); d.pcs != [] ==>
        var p := FuncPassOf(old(funcs), d.frames, opt.genericsFrames);
        funcs == p.funcs && mem[..] == Attributed(old(mem[..]), d.pcs[0], d.symbolizeResult)
        && LocationMsgsOK(ms, id, d.frames[0], p.lines, p.newFuncs, MappingIdOf(old(mem[..]), d.pcs[0]), strings)
    {
      if |deck.pcs| == 0 {
        return 0, [];
      }
      id, ms := EmitDeck(deck.State());
      deck.Reset();
    }

    /** emitLocation for the non-empty deck d, up to the deferred reset. */
    method EmitDeck(d: DeckState) returns (id: nat, ghost ms: seq<Message>)
      requires d.pcs != [] && WalkInv(locs, d, 1) && StringsValid(strings, stringMap) && FuncsValid(funcs)
      modifies this`locs, this`funcs, this`strings, this`stringMap, this`pending, this`written, mem
      ensures LocsValid(locs, 1) && StringsValid(strings, stringMap) && FuncsValid(funcs) && old(strings) <= strings
      ensures Emitted() == old(Emitted()) + ms
      ensures var e := Locations.Emit(old(locs), d, 1); locs == e.locs && e.ids == [id]
      ensures |locs| == |old(locs)| + 1
      ensures var p := FuncPassOf(old(funcs), d.frames, opt.genericsFrames);
        funcs == p.funcs && mem[..] == Attributed(old(mem[..]), d.pcs[0], d.symbolizeResult)
        && LocationMsgsOK(ms, id, d.frames[0], p.lines, p.newFuncs, MappingIdOf(old(mem[..]), d.pcs[0]), strings)
    {
      EmitValid(locs, d, 1);
      var lines, newFuncs, mappingId;
      id, lines, newFuncs, mappingId := RecordLocation(d);
      ms := EncodeLocation(id, d.frames[0], lines, newFuncs, mappingId);
      Regroup(written, old(pending), ms, old(Emitted()), Emitted());
      Flush();
    }

    /** One iteration of LocsForStack's loop over stk[0]: Step, with the
        deck, the cache and allFrames doing the work; the function ids and
        the mappings are what emitting the decks of that step leaves. */
    method WalkStep(stk: seq<Addr>, callers: Addr -> seq<Frame>,
                    ghost f0: map<string, nat>, ghost m0: seq<MemMap>, ghost prev: seq<DeckState>)
      returns (ids: seq<nat>, rest: seq<Addr>, ghost ms: seq<Message>, ghost done: seq<DeckState>)
      requires Valid() && stk != []
      requires funcs == FuncsAfter(f0, prev, opt.genericsFrames) && mem[..] == MemAfter(m0, prev)
      modifies this`locs, this`funcs, this`strings, this`stringMap, this`pending, this`written, deck, mem
      ensures Valid() && Emitted() == old(Emitted()) + ms && old(strings) <= strings
      ensures |rest| < |stk|
      ensures var w := LocWalk(locs, deck.State(), rest, 1, callers);
        LocWalk(old(locs), old(deck.State()), stk, 1, callers) == Walk(ids + w.ids, w.locs)
      ensures var ds := StepDecks(old(locs), old(deck.State()), stk, 1, callers);
        done == prev + ds
        && funcs == FuncsAfter(f0, done, opt.genericsFrames) && mem[..] == MemAfter(m0, done)
        && WalkDecks(old(locs), old(deck.State()), stk, 1, callers) == ds + WalkDecks(locs, deck.State(), rest, 1, callers)
    {
      WalkUnfold(locs, deck.State(), stk, 1, callers);
      ghost var ds := StepDecks(locs, deck.State(), stk, 1, callers);
      ghost var f1, m1, d := funcs, mem[..], deck.State();
      if stk[0] in locs {
        ids, rest, ms := StepCached(stk, callers);
      } else {
        ids, rest, ms := StepUncached(stk, callers);
      }
      done := prev + ds;
      AfterStep(f0, m0, prev, ds, d, f1, m1, funcs, mem[..], opt.genericsFrames);
    }

    /** The loop body for a PC already in the cache: the deck takes its
        cached frames as inlined ones, or the deck is emitted and the cached
        id follows, skipping the PCs of that location. */
    method StepCached(stk: seq<Addr>, callers: Addr -> seq<Frame>)
      returns (ids: seq<nat>, rest: seq<Addr>, ghost ms: seq<Message>)
      requires Valid() && stk != [] && stk[0] in locs
      modifies this`locs, this`funcs, this`strings, this`stringMap, this`pending, this`written, deck, mem
      ensures Valid() && Emitted() == old(Emitted()) + ms && old(strings) <= strings
      ensures var s := Step(old(locs), old(deck.State()), stk, 1, callers);
        ids == s.ids && locs == s.locs && deck.State() == s.deck && rest == s.stk
      ensures var d := old(deck.State()); StepDecks(old(locs), d, stk, 1, callers) == [] ==>
        funcs == old(funcs) && mem[..] == old(mem[..])
      ensures var d := old(deck.State()); StepDecks(old(locs), d, stk, 1, callers) != [] ==>
        d.pcs != [] && funcs == FuncPassOf(old(funcs), d.frames, opt.genericsFrames).funcs
        && mem[..] == Attributed(old(mem[..]), d.pcs[0], d.symbolizeResult)
    {
      StepKeeps(locs, deck.State(), stk, 1, callers);
      ghost var ds := StepDecks(locs, deck.State(), stk, 1, callers);
      ms := [];
      var addr := stk[0];
      var l := locs[addr];
      if |deck.pcs| > 0 {
        var added := deck.TryAdd(addr, l.firstPCFrames, l.firstPCSymbolizeResult);
        if added {
          assert ds == [];
          return [], stk[1..], [];
        }
      }
      assert ds == DeckList(deck.State());
      var id;
      id, ms := EmitLocation();
      ids := if id > 0 then [id] else [];
      ids := ids + [l.id];
      return ids, Skip(stk, |l.pcs|), ms;
    }

    /** The loop body for a PC not in the cache: allFrames expands it; goexit
        emits the deck, an inlined frame joins it, and otherwise the deck is
        emitted and the PC either turns out cached or starts the next deck. */
    method StepUncached(stk: seq<Addr>, callers: Addr -> seq<Frame>)
      returns (ids: seq<nat>, rest: seq<Addr>, ghost ms: seq<Message>)
      requires Valid() && stk != [] && stk[0] !in locs
      modifies this`locs, this`funcs, this`strings, this`stringMap, this`pending, this`written, deck, mem
      ensures Valid() && Emitted() == old(Emitted()) + ms && old(strings) <= strings
      ensures var s := Step(old(locs), old(deck.State()), stk, 1, callers);
        ids == s.ids && locs == s.locs && deck.State() == s.deck && rest == s.stk
      ensures var d := old(deck.State()); StepDecks(old(locs), d, stk, 1, callers) == [] ==>
        funcs == old(funcs) && mem[..] == old(mem[..])
      ensures var d := old(deck.State()); StepDecks(old(locs), d, stk, 1, callers) != [] ==>
        d.pcs != [] && funcs == FuncPassOf(old(funcs), d.frames, opt.genericsFrames).funcs
        && mem[..] == Attributed(old(mem[..]), d.pcs[0], d.symbolizeResult)
    {
      StepKeeps(locs, deck.State(), stk, 1, callers);
      ghost var ds := StepDecks(locs, deck.State(), stk, 1, callers);
      ms := [];
      var addr := stk[0];
      var frames, symbolizeResult := AllFrames(addr, callers(addr));
      if |frames| == 0 {
        assert ds == DeckList(deck.State());
        var id;
        id, ms := EmitLocation();
        ids := if id > 0 then [id] else [];
        return ids, stk[1..], ms;
      }
      var added := deck.TryAdd(addr, frames, symbolizeResult);
      if added {
        assert ds == [];
        return [], stk[1..], [];
      }
      assert ds == DeckList(deck.State());
      ids, rest, ms := Restart(stk, frames, symbolizeResult);
    }

    /** The end of the loop body for an uncached PC the deck rejected: the
        deck is emitted; if that cached the PC, its id follows and the PCs of
        its location are skipped, otherwise it starts the next deck. */
    method Restart(stk: seq<Addr>, frames: seq<Frame>, sr: SymbolizeFlag)
      returns (ids: seq<nat>, rest: seq<Addr>, ghost ms: seq<Message>)
      requires Valid() && stk != [] && stk[0] !in locs && frames != []
      modifies this`locs, this`funcs, this`strings, this`stringMap, this`pending, this`written, deck, mem
      ensures Valid() && Emitted() == old(Emitted()) + ms && old(strings) <= strings
      ensures var e := Locations.Emit(old(locs), old(deck.State()), 1);
        locs == e.locs
        && (stk[0] in e.locs ==>
              ids == e.ids + [e.locs[stk[0]].id] && deck.State() == EmptyDeck && rest == Skip(stk, |e.locs[stk[0]].pcs|))
        && (stk[0] !in e.locs ==>
              ids == e.ids && deck.State() == Added(EmptyDeck, stk[0], frames, sr) && rest == stk[1..])
      ensures var d := old(deck.State()); d.pcs == [] ==> funcs == old(funcs) && mem[..] == old(mem[..])
      ensures var d := old(deck.State()); d.pcs != [] ==>
        funcs == FuncPassOf(old(funcs), d.frames, opt.genericsFrames).funcs
        && mem[..] == Attributed(old(mem[..]), d.pcs[0], d.symbolizeResult)
    {
      var addr := stk[0];
      var id;
      id, ms := EmitLocation();
      ids := if id > 0 then [id] else [];
      if addr in locs {
        var l := locs[addr];
        ids := ids + [l.id];
        rest := Skip(stk, |l.pcs|);
      } else {
        AddedInv(EmptyDeck, addr, frames, sr);
        var added := deck.TryAdd(addr, frames, sr);
        assert added;
        rest := stk[1..];
      }
    }

    /** LocsForStack: resets the deck, expands the final inline frame of stk
        (runtime_expandFinalInlineFrame is the parameter expand), walks the
        expanded stack and emits what is left in the deck. The ids returned
        are those of LocWalk from the old cache; each is positive and names a
        cached location. The decks the walk emits are cached under their
        first PCs with the next ids in order, and the function ids and the
        mappings are what emitting them in order leaves. */
    method LocsForStack(stk: seq<Addr>, expand: seq<Addr> -> seq<Addr>, callers: Addr -> seq<Frame>)
      returns (newLocs: seq<nat>, ghost ms: seq<Message>)
      requires Valid()
      modifies this`locs, this`funcs, this`strings, this`stringMap, this`pending, this`written, deck, mem
      ensures Valid() && deck.State() == EmptyDeck && Emitted() == old(Emitted()) + ms && old(strings) <= strings
      ensures var w := LocWalk(old(locs), EmptyDeck, expand(stk), 1, callers);
        newLocs == w.ids && locs == w.locs
      ensures forall i :: 0 <= i < |newLocs| ==> newLocs[i] > 0 && newLocs[i] in IdsOf(locs)
      ensures var ds := WalkDecks(old(locs), EmptyDeck, expand(stk), 1, callers);
        CachedAt(locs, ds, |old(locs)| + 1)
        && funcs == FuncsAfter(old(funcs), ds, opt.genericsFrames) && mem[..] == MemAfter(old(mem[..]), ds)
    {
      deck.Reset();
      var s := expand(stk);
      WalkKeeps(locs, EmptyDeck, s, 1, callers);
      WalkCaches(locs, EmptyDeck, s, 1, callers);
      newLocs, ms := WalkStack(s, callers);
    }

    /** LocsForStack's loop and the emitLocation after it: steps until the
        stack is used up, then emits what is left in the deck. The ids are
        those of LocWalk, and the function ids and the mappings are what
        emitting the decks of WalkDecks in order leaves. */
    method WalkStack(stk: seq<Addr>, callers: Addr -> seq<Frame>)
      returns (newLocs: seq<nat>, ghost ms: seq<Message>)
      requires Valid()
      modifies this`locs, this`funcs, this`strings, this`stringMap, this`pending, this`written, deck, mem
      ensures Valid() && deck.State() == EmptyDeck && Emitted() == old(Emitted()) + ms && old(strings) <= strings
      ensures var w := LocWalk(old(locs), old(deck.State()), stk, 1, callers);
        newLocs == w.ids && locs == w.locs
      ensures var ds := WalkDecks(old(locs), old(deck.State()), stk, 1, callers);
        funcs == FuncsAfter(old(funcs), ds, opt.genericsFrames) && mem[..] == MemAfter(old(mem[..]), ds)
    {
      newLocs, ms := [], [];
      ghost var done := [];
      var s := stk;
      ghost var w := LocWalk(locs, deck.State(), s, 1, callers);
      ghost var wd := WalkDecks(locs, deck.State(), s, 1, callers);
      ghost var f0, m0 := funcs, mem[..];
      assert FuncsAfter(f0, done, opt.genericsFrames) == f0 && MemAfter(m0, done) == m0;
      while |s| > 0
        invariant Valid() && Emitted() == old(Emitted()) + ms && old(strings) <= strings
        invariant newLocs + LocWalk(locs, deck.State(), s, 1, callers).ids == w.ids
        invariant LocWalk(locs, deck.State(), s, 1, callers).locs == w.locs
        invariant done + WalkDecks(locs, deck.State(), s, 1, callers) == wd
        invariant funcs == FuncsAfter(f0, done, opt.genericsFrames) && mem[..] == MemAfter(m0, done)
        decreases |s|
      {
        ghost var out0, ms0, e0, done0 := newLocs, ms, Emitted(), done;
        ghost var sd := StepDecks(locs, deck.State(), s, 1, callers);
        var ids;
        ghost var stepMs;
        ids, s, stepMs, done := WalkStep(s, callers, f0, m0, done);
        ghost var rest := LocWalk(locs, deck.State(), s, 1, callers);
        ghost var wB := WalkDecks(locs, deck.State(), s, 1, callers);
        newLocs := newLocs + ids;
        ms := ms + stepMs;
        Chain(old(Emitted()), ms0, stepMs, e0, Emitted());
        Chain(done0, sd, wB, done, done + wB);
        Chain(out0, ids, rest.ids, newLocs, newLocs + rest.ids);
      }
      assert s == [] && wd == done + DeckList(deck.State());
      ghost var ms0, e0, s1 := ms, Emitted(), strings;
      ghost var out0, e := newLocs, Locations.Emit(locs, deck.State(), 1);
      var id;
      ghost var lastMs;
      id, lastMs := FinishWalk(f0, m0, done);
      ms := ms + lastMs;
      Chain(old(Emitted()), ms0, lastMs, e0, Emitted());
      assert old(strings) <= s1 <= strings;
      if id > 0 {
        newLocs := newLocs + [id];
      }
      assert newLocs == out0 + e.ids;
    }

    /** The emitLocation after LocsForStack's loop: the decks emitted so far
        and the one emitted here together give the function ids and the
        mappings. */
    method FinishWalk(ghost f0: map<string, nat>, ghost m0: seq<MemMap>, ghost done: seq<DeckState>)
      returns (id: nat, ghost ms: seq<Message>)
      requires Valid()
      requires funcs == FuncsAfter(f0, done, opt.genericsFrames) && mem[..] == MemAfter(m0, done)
      modifies this`locs, this`funcs, this`strings, this`stringMap, this`pending, this`written, deck, mem
      ensures Valid() && deck.State() == EmptyDeck && Emitted() == old(Emitted()) + ms && old(strings) <= strings
      ensures var e := Locations.Emit(old(locs), old(deck.State()), 1);
        locs == e.locs && (e.ids == [] ==> id == 0) && (e.ids != [] ==> e.ids == [id])
      ensures var all := done + DeckList(old(deck.State()));
        funcs == FuncsAfter(f0, all, opt.genericsFrames) && mem[..] == MemAfter(m0, all)
    {
      ghost var f1, m1, d := funcs, mem[..], deck.State();
      id, ms := EmitLocation();
      AfterStep(f0, m0, done, DeckList(d), d, f1, m1, funcs, mem[..], opt.genericsFrames);
    }

    /** pbMapping for mapping k: id k + 1 and HasFunctions when its flag is
        LookupTried alone. */
    method EncodeMapping(k: nat) returns (msg: Message)
      requires StringsValid(strings, stringMap) && k < mem.Length
      modifies this`strings, this`stringMap, this`pending
      ensures StringsValid(strings, stringMap) && old(strings) <= strings
      ensures pending == old(pending) + [msg] && MappingOK(msg, k, mem[k], strings)
    {
      var m := mem[k];
      var hasFunctions := m.funcs == LookupTried;
      var filename := StringIndex(m.file);
      var buildId := StringIndex(m.buildID);
      msg := MappingMsg(k + 1, m.start, m.end, m.offset, filename, buildId, hasFunctions);
      Encode(msg);
    }

    /** Build: the start time, one Mapping message per mapping, and the
        string table, which by then holds the mapping names; everything
        encoded is written. */
    method Build() returns (ghost maps: seq<Message>)
      requires StringsValid(strings, stringMap)
      modifies this`strings, this`stringMap, this`pending, this`written
      ensures StringsValid(strings, stringMap) && old(strings) <= strings && pending == []
      ensures written == old(Emitted()) + [TimeNanosMsg(start)] + maps + [StringTableMsg(strings)]
      ensures |maps| == mem.Length && forall k :: 0 <= k < mem.Length ==> MappingOK(maps[k], k, mem[k], strings)
    {
      Encode(TimeNanosMsg(start));
      maps := [];
      var i := 0;
      while i < mem.Length
        invariant 0 <= i <= mem.Length && |maps| == i && written == old(written)
        invariant StringsValid(strings, stringMap) && old(strings) <= strings
        invariant pending == old(pending) + [TimeNanosMsg(start)] + maps
        invariant forall k :: 0 <= k < i ==> MappingOK(maps[k], k, mem[k], strings)
      {
        ghost var s0, maps0 := strings, maps;
        var m := EncodeMapping(i);
        maps := maps + [m];
        forall k | 0 <= k < i ensures MappingOK(maps[k], k, mem[k], strings) {
          assert maps[k] == maps0[k];
          MappingGrows(maps0[k], k, mem[k], s0, strings);
        }
        i := i + 1;
      }
      Encode(StringTableMsg(strings));
      written := written + pending;
      pending := [];
    }
  }
}
