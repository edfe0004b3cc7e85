/** The OTLP profile builder of godeltaprof (otlp/otlpbuilder.go), a copy of
    the pprof builder that fills an in-memory OTLP Profile instead of an
    encoded stream. Location and function ids start at 0 and are positions
    in the profile's Location and Function lists; a sample names a run of
    one shared list of location indices; mapping indices are 0-based. */
module Otlp {
  import opened Mapping
  import opened Runtime
  import opened Deck
  import opened Locations
  import opened Proto

  /** The otlpprofile messages and fields the builder sets; string fields
      are string-table indices. */
  datatype OValueType = OValueType(typ: nat, unit: nat)
  datatype OSample = OSample(locationsStartIndex: nat, locationsLength: nat, values: seq<int>)
  datatype OLocation = OLocation(id: nat, address: Addr, lines: seq<Line>, mappingIndex: nat)
  datatype OFunction = OFunction(id: nat, name: nat, systemName: nat, filename: nat, startLine: int)
  datatype OMapping = OMapping(id: nat, memoryStart: nat, memoryLimit: nat, fileOffset: nat,
                               filename: nat, buildId: nat, hasFunctions: bool)
  datatype Profile = Profile(periodType: OValueType, period: int, sampleTypes: seq<OValueType>,
                             defaultSampleType: nat, samples: seq<OSample>, locations: seq<OLocation>,
                             functions: seq<OFunction>, mappings: seq<OMapping>, stringTable: seq<string>,
                             locationIndices: seq<int>, timeNanos: int, durationNanos: int)

  /** &otlpprofile.Profile{}: every field zero (a nil PeriodType reads as
      OValueType(0, 0)). */
  const EmptyProfile := Profile(OValueType(0, 0), 0, [], 0, [], [], [], [], [], [], 0, 0)

  /** Function ids are 0, 1, ... in order of first occurrence: all below
      |funcs| and pairwise distinct. */
  ghost predicate FuncsValid0(funcs: map<string, nat>)
  {
    (forall k :: k in funcs ==> funcs[k] < |funcs|)
    && (forall k1, k2 :: k1 in funcs && k2 in funcs && k1 != k2 ==> funcs[k1] != funcs[k2])
  }

  /** emitLocation's loop over the deck's frames, with the new id stored
      under the symbol name it is looked up by (OFuncStep). */
  function OFuncPassOf(funcs: map<string, nat>, frames: seq<Frame>, generics: bool): FuncPass
  {
    if frames == [] then FuncPass(funcs, [], [])
    else OFuncStep(OFuncPassOf(funcs, frames[..|frames| - 1], generics), frames[|frames| - 1], generics)
  }

  /** One frame: a symbol name seen before reuses its id; a new one gets
      |funcs| and records a new function. */
  function OFuncStep(p: FuncPass, f: Frame, generics: bool): FuncPass
  {
    var key := f.symbolName;
    if key in p.funcs then FuncPass(p.funcs, p.lines + [Line(p.funcs[key], f.line)], p.newFuncs)
    else
      var id := |p.funcs|;
      FuncPass(p.funcs[key := id], p.lines + [Line(id, f.line)],
               p.newFuncs + [NewFunc(id, if generics then key else f.funcName, f.file, f.startLine)])
  }

  /** One frame keeps the ids valid and every known id, appends the Line
      with the id now registered for the frame's symbol, and records at most
      one new function, with id |funcs|. */
  lemma OFuncStepKeeps(p: FuncPass, f: Frame, generics: bool)
    requires FuncsValid0(p.funcs)
    ensures var r := OFuncStep(p, f, generics);
      FuncsValid0(r.funcs) && FuncsExtend(r.funcs, p.funcs)
      && f.symbolName in r.funcs && r.lines == p.lines + [Line(r.funcs[f.symbolName], f.line)]
      && ((|r.funcs| == |p.funcs| && r.newFuncs == p.newFuncs)
          || (|r.funcs| == |p.funcs| + 1 && |r.newFuncs| == |p.newFuncs| + 1
              && r.newFuncs[..|p.newFuncs|] == p.newFuncs && r.newFuncs[|p.newFuncs|].id == |p.funcs|))
  {
    var key := f.symbolName;
    var r := OFuncStep(p, f, generics);
    if key !in p.funcs {
      assert r.funcs == p.funcs[key := |p.funcs|];
      forall k | k in r.funcs ensures r.funcs[k] < |r.funcs| {
        if k != key { assert r.funcs[k] == p.funcs[k]; }
      }
    }
  }

  /** The frame pass keeps ids 0-based and distinct, never renumbers a known
      function, gives every frame's Line the id now registered for its symbol
      name, and numbers the new functions |funcs|, |funcs| + 1, ... so that
      they extend a Function list indexed by id, one per introducing frame,
      each with that frame's name, file and start line. */
  lemma OFuncPassMeaning(funcs: map<string, nat>, frames: seq<Frame>, generics: bool)
    requires FuncsValid0(funcs)
    ensures var p := OFuncPassOf(funcs, frames, generics);
      FuncsValid0(p.funcs) && FuncsExtend(p.funcs, funcs)
      && |p.lines| == |frames| && |p.funcs| == |funcs| + |p.newFuncs|
      && (forall j :: 0 <= j < |frames| ==>
            frames[j].symbolName in p.funcs && p.lines[j] == Line(p.funcs[frames[j].symbolName], frames[j].line))
      && (forall k :: 0 <= k < |p.newFuncs| ==> p.newFuncs[k].id == |funcs| + k)
      && p.funcs.Keys == funcs.Keys + Symbols(frames)
      && var fs := Introducers(funcs, frames);
      |p.newFuncs| == |fs| && forall k :: 0 <= k < |fs| ==> p.newFuncs[k] == NewFuncFor(fs[k], |funcs| + k, generics)
  {
    OFuncPassShape(funcs, frames, generics);
    OFuncPassLines(funcs, frames, generics);
    OFuncPassNew(funcs, frames, generics);
    OFuncPassKeys(funcs, frames, generics);
  }

  /** The frame pass records one function per introducing frame, in order,
      with that frame's name, file and start line. */
  lemma {:induction false} OFuncPassNew(funcs: map<string, nat>, frames: seq<Frame>, generics: bool)
    requires FuncsValid0(funcs)
    ensures var p, fs := OFuncPassOf(funcs, frames, generics), Introducers(funcs, frames);
      |p.newFuncs| == |fs|
      && forall k :: 0 <= k < |fs| ==>
           p.newFuncs[k] == NewFuncFor(fs[k], |funcs| + k, generics)
  {
    if frames != [] {
      var init, f := frames[..|frames| - 1], frames[|frames| - 1];
      OFuncPassNew(funcs, init, generics);
      var p := OFuncPassOf(funcs, init, generics);
      var fs := Introducers(funcs, init);
      assert |p.funcs| == |funcs| + |fs| && (f.symbolName in p.funcs <==> f.symbolName in funcs || f.symbolName in Symbols(init)) by {
        OFuncPassShape(funcs, init, generics);
        OFuncPassKeys(funcs, init, generics);
      }
      OFuncStepNew(p, f, generics);
      if f.symbolName !in p.funcs {
        var fs' := fs + [f];
        assert Introducers(funcs, frames) == fs';
      } else {
        assert Introducers(funcs, frames) == fs;
      }
    }
  }

  /** One frame records a function exactly when its symbol name is new. */
  lemma OFuncStepNew(p: FuncPass, f: Frame, generics: bool)
    ensures OFuncStep(p, f, generics).newFuncs
      == if f.symbolName in p.funcs then p.newFuncs else p.newFuncs + [NewFuncFor(f, |p.funcs|, generics)]
  {
  }

  /** After the frame pass the known names are the old ones and the frames'
      symbol names. */
  lemma {:induction false} OFuncPassKeys(funcs: map<string, nat>, frames: seq<Frame>, generics: bool)
    ensures OFuncPassOf(funcs, frames, generics).funcs.Keys == funcs.Keys + Symbols(frames)
  {
    if frames != [] {
      var init := frames[..|frames| - 1];
      OFuncPassKeys(funcs, init, generics);
      OFuncStepKeys(OFuncPassOf(funcs, init, generics), frames[|frames| - 1], generics);
    }
  }

  /** One frame registers its symbol name and no other. */
  lemma OFuncStepKeys(p: FuncPass, f: Frame, generics: bool)
    ensures OFuncStep(p, f, generics).funcs.Keys == p.funcs.Keys + {f.symbolName}
  {
  }

  /** The id bookkeeping of the frame pass. */
  lemma {:induction false} OFuncPassShape(funcs: map<string, nat>, frames: seq<Frame>, generics: bool)
    requires FuncsValid0(funcs)
    ensures var p := OFuncPassOf(funcs, frames, generics);
      FuncsValid0(p.funcs) && FuncsExtend(p.funcs, funcs)
      && |p.lines| == |frames| && |p.funcs| == |funcs| + |p.newFuncs|
      && (forall k :: 0 <= k < |p.newFuncs| ==> p.newFuncs[k].id == |funcs| + k)
  {
    if frames != [] {
      var init := frames[..|frames| - 1];
      OFuncPassShape(funcs, init, generics);
      var p := OFuncPassOf(funcs, init, generics);
      OFuncStepKeeps(p, frames[|frames| - 1], generics);
      var r := OFuncPassOf(funcs, frames, generics);
      assert r == OFuncStep(p, frames[|frames| - 1], generics);
      forall k | k in funcs ensures k in r.funcs && r.funcs[k] == funcs[k] {
        assert k in p.funcs && p.funcs[k] == funcs[k];
      }
      if |r.newFuncs| != |p.newFuncs| {
        var n := |p.newFuncs|;
        assert r.newFuncs[..n] == p.newFuncs && r.newFuncs[n].id == |p.funcs|;
        forall k | 0 <= k < |r.newFuncs| ensures r.newFuncs[k].id == |funcs| + k {
          if k < n {
            assert r.newFuncs[k] == r.newFuncs[..n][k];
          }
        }
      }
    }
  }

  /** Every frame's Line carries the id its symbol name has after the pass. */
  lemma {:induction false} OFuncPassLines(funcs: map<string, nat>, frames: seq<Frame>, generics: bool)
    requires FuncsValid0(funcs)
    ensures var p := OFuncPassOf(funcs, frames, generics);
      |p.lines| == |frames|
      && forall j :: 0 <= j < |frames| ==>
           frames[j].symbolName in p.funcs && p.lines[j] == Line(p.funcs[frames[j].symbolName], frames[j].line)
  {
    if frames != [] {
      var init := frames[..|frames| - 1];
      OFuncPassLines(funcs, init, generics);
      OFuncPassShape(funcs, init, generics);
      var p := OFuncPassOf(funcs, init, generics);
      OFuncStepKeeps(p, frames[|frames| - 1], generics);
      var r := OFuncPassOf(funcs, frames, generics);
      assert r == OFuncStep(p, frames[|frames| - 1], generics);
      forall j | 0 <= j < |frames|
        ensures frames[j].symbolName in r.funcs && r.lines[j] == Line(r.funcs[frames[j].symbolName], frames[j].line)
      {
        if j < |init| {
          assert frames[j] == init[j] && r.lines[j] == p.lines[j];
          assert r.funcs[init[j].symbolName] == p.funcs[init[j].symbolName];
        }
      }
    }
  }

  /** The frame pass as otlpbuilder.go writes it: the lookup is by symbol
      name, but the new id is stored under frame.Function. */
  function OFuncPassAsWrittenOf(funcs: map<string, nat>, frames: seq<Frame>, generics: bool): FuncPass
  {
    if frames == [] then FuncPass(funcs, [], [])
    else OFuncStepAsWritten(OFuncPassAsWrittenOf(funcs, frames[..|frames| - 1], generics),
                            frames[|frames| - 1], generics)
  }

  function OFuncStepAsWritten(p: FuncPass, f: Frame, generics: bool): FuncPass
  {
    var key := f.symbolName;
    if key in p.funcs then FuncPass(p.funcs, p.lines + [Line(p.funcs[key], f.line)], p.newFuncs)
    else
      var id := |p.funcs|;
      FuncPass(p.funcs[f.funcName := id], p.lines + [Line(id, f.line)],
               p.newFuncs + [NewFunc(id, if generics then key else f.funcName, f.file, f.startLine)])
  }

  /** As long as every frame's symbol name is its function name (no
      generic functions), the pass as written is the intended one. */
  lemma {:induction false} AsWrittenAgrees(funcs: map<string, nat>, frames: seq<Frame>, generics: bool)
    requires forall j :: 0 <= j < |frames| ==> frames[j].symbolName == frames[j].funcName
    ensures OFuncPassAsWrittenOf(funcs, frames, generics) == OFuncPassOf(funcs, frames, generics)
  {
    if frames != [] {
      AsWrittenAgrees(funcs, frames[..|frames| - 1], generics);
    }
  }

  /** Two functions whose symbol names differ from their names, as generic
      instantiations do: with the pass as written, the second frame of the
      first function is recorded again as a new function, under the id the
      second function then also gets, so one FunctionIndex names two
      functions. */
  lemma FuncIdCollision()
    ensures var f1 := Frame(true, 0, "a", "b", "", 0, 0, 0);
      var f2 := Frame(true, 0, "c", "c", "", 0, 0, 0);
      var p := OFuncPassAsWrittenOf(map[], [f1, f1, f2], false);
      |p.newFuncs| == 3 && p.newFuncs[1].id == p.newFuncs[2].id && p.newFuncs[1].name != p.newFuncs[2].name
      && |p.lines| == 3 && p.lines[1].functionId == p.lines[2].functionId
  {
    var f1 := Frame(true, 0, "a", "b", "", 0, 0, 0);
    var f2 := Frame(true, 0, "c", "c", "", 0, 0, 0);
    assert [f1, f1, f2][..2] == [f1, f1];
    assert [f1, f1][..1] == [f1];
    assert [f1][..0] == [];
    var p0 := OFuncPassAsWrittenOf(map[], [], false);
    assert p0 == FuncPass(map[], [], []);
    assert p0.funcs[f1.funcName := 0] == map["b" := 0];
    var p1 := OFuncPassAsWrittenOf(map[], [f1], false);
    assert p1 == OFuncStepAsWritten(p0, f1, false);
    assert p1 == FuncPass(map["b" := 0], [Line(0, 0)], [NewFunc(0, "b", "", 0)]);
    var p2 := OFuncPassAsWrittenOf(map[], [f1, f1], false);
    assert map["b" := 0]["b" := 1] == map["b" := 1];
    assert p2 == FuncPass(map["b" := 1], [Line(0, 0), Line(1, 0)], [NewFunc(0, "b", "", 0), NewFunc(1, "b", "", 0)]);
    assert |map["b" := 1]| == 1;
  }

  /** v names vt. */
  ghost predicate OValueTypeOK(v: OValueType, vt: ValueType, strings: seq<string>)
  {
    Resolves(strings, v.typ, vt.typ) && Resolves(strings, v.unit, vt.unit)
  }

  /** The header newOTLPProtoBuilder sets for stc. */
  ghost predicate OHeaderOK(p: Profile, stc: ProfileConfig, strings: seq<string>)
  {
    OValueTypeOK(p.periodType, stc.periodType, strings) && p.period == stc.period
    && |p.sampleTypes| == |stc.sampleTypes|
    && (forall k :: 0 <= k < |p.sampleTypes| ==> OValueTypeOK(p.sampleTypes[k], stc.sampleTypes[k], strings))
    && (stc.defaultSampleType != "" ==> Resolves(strings, p.defaultSampleType, stc.defaultSampleType))
    && (stc.defaultSampleType == "" ==> p.defaultSampleType == 0)
  }

  /** A Function for f whose string fields resolve in strings. */
  ghost predicate OFunctionOK(m: OFunction, f: NewFunc, strings: seq<string>)
  {
    m.id == f.id && m.startLine == f.startLine
    && Resolves(strings, m.name, f.name) && m.systemName == m.name && Resolves(strings, m.filename, f.file)
  }

  ghost predicate FunctionsOK(fs: seq<OFunction>, newFuncs: seq<NewFunc>, strings: seq<string>)
  {
    |fs| == |newFuncs| && forall k :: 0 <= k < |fs| ==> OFunctionOK(fs[k], newFuncs[k], strings)
  }

  /** The MappingIndex a location at addr gets: the index of the first
      covering mapping, 0 when none covers it. */
  function MappingIndexOf(mem: seq<MemMap>, addr: Addr): (i: nat)
    ensures |mem| > 0 ==> i < |mem|
    ensures i > 0 ==> i < |mem| && Covers(mem[i], addr) && forall j :: 0 <= j < i ==> !Covers(mem[j], addr)
  {
    var i := FirstMatch(mem, addr);
    if i < |mem| then i else 0
  }

  /** The Mapping for mapping m at index k: id k + 1 and HasFunctions
      exactly when its flag is LookupTried alone. */
  ghost predicate OMappingOK(msg: OMapping, k: nat, m: MemMap, strings: seq<string>)
  {
    msg.id == k + 1 && msg.memoryStart == m.start && msg.memoryLimit == m.end
    && msg.fileOffset == m.offset && Resolves(strings, msg.filename, m.file)
    && Resolves(strings, msg.buildId, m.buildID) && (msg.hasFunctions <==> m.funcs == LookupTried)
  }

  /** The lists of a profile under construction: location and function ids
      are positions, every Line names a function of the list, and every
      sample's run lies within the location-index list of length nIdx. */
  ghost predicate Indexed(p: Profile, nLocs: nat, nFuncs: nat, nIdx: nat)
  {
    |p.locations| == nLocs && |p.functions| == nFuncs
    && (forall k :: 0 <= k < |p.locations| ==> p.locations[k].id == k)
    && (forall k :: 0 <= k < |p.functions| ==> p.functions[k].id == k)
    && (forall k, j :: 0 <= k < |p.locations| && 0 <= j < |p.locations[k].lines| ==>
          p.locations[k].lines[j].functionId < nFuncs)
    && (forall k :: 0 <= k < |p.samples| ==>
          p.samples[k].locationsStartIndex + p.samples[k].locationsLength <= nIdx)
  }

  /** Every string index in p is below n. */
  ghost predicate Refs(p: Profile, n: nat)
  {
    p.periodType.typ < n && p.periodType.unit < n && p.defaultSampleType < n
    && (forall k :: 0 <= k < |p.sampleTypes| ==> p.sampleTypes[k].typ < n && p.sampleTypes[k].unit < n)
    && (forall k :: 0 <= k < |p.functions| ==>
          p.functions[k].name < n && p.functions[k].systemName < n && p.functions[k].filename < n)
    && (forall k :: 0 <= k < |p.mappings| ==> p.mappings[k].filename < n && p.mappings[k].buildId < n)
  }

  /** r1 is r0 with Functions and Locations appended and nothing else changed. */
  ghost predicate Grows(r1: Profile, r0: Profile)
  {
    r0.functions <= r1.functions && r0.locations <= r1.locations
    && r1 == r0.(functions := r1.functions, locations := r1.locations)
  }

  /** Ids of the cache index the Location list. */
  lemma IdsIndexed(locs: Locs, p: Profile, ids: seq<nat>, nFuncs: nat, nIdx: nat)
    requires LocsValid(locs, 0) && Indexed(p, |locs|, nFuncs, nIdx)
    requires forall i :: 0 <= i < |ids| ==> ids[i] in IdsOf(locs)
    ensures forall i :: 0 <= i < |ids| ==> ids[i] < |p.locations| && p.locations[ids[i]].id == ids[i]
  {
    IdsBelow(locs, 0);
  }

  /** Indexed speaks only of the Location, Function and Sample lists. */
  lemma IndexedFrame(p1: Profile, p0: Profile, nLocs: nat, nFuncs: nat, nIdx: nat)
    requires Indexed(p0, nLocs, nFuncs, nIdx)
    requires p1.locations == p0.locations && p1.functions == p0.functions && p1.samples == p0.samples
    ensures Indexed(p1, nLocs, nFuncs, nIdx)
  {
  }

  /** Refs speaks only of the header, the Function and the Mapping lists. */
  lemma RefsFrame(p1: Profile, p0: Profile, n: nat)
    requires Refs(p0, n)
    requires p1.periodType == p0.periodType && p1.defaultSampleType == p0.defaultSampleType
    requires p1.sampleTypes == p0.sampleTypes && p1.functions == p0.functions && p1.mappings == p0.mappings
    ensures Refs(p1, n)
  {
  }

  /** Replacing the Mapping list by one whose string indices lie below n keeps Refs. */
  lemma RefsMappings(p1: Profile, p0: Profile, n: nat)
    requires Refs(p0, n) && p1 == p0.(mappings := p1.mappings)
    requires forall k :: 0 <= k < |p1.mappings| ==> p1.mappings[k].filename < n && p1.mappings[k].buildId < n
    ensures Refs(p1, n)
  {
  }

  /** Build's three updates of the profile, composed. */
  lemma BuildChain(r0: Profile, r1: Profile, r2: Profile, r3: Profile, st: seq<string>, li: seq<int>, t: int, d: int)
    requires r1 == r0.(locationIndices := li, timeNanos := t, durationNanos := d)
    requires r2 == r1.(mappings := r2.mappings) && r3 == r2.(stringTable := st)
    ensures r3 == r0.(mappings := r3.mappings, stringTable := st, locationIndices := li, timeNanos := t, durationNanos := d)
  {
  }

  /** The as-written Build's two updates of the profile, composed. */
  lemma BuildAsWrittenChain(r0: Profile, r1: Profile, r2: Profile, st: seq<string>, li: seq<int>, t: int, d: int)
    requires r1 == r0.(stringTable := st, locationIndices := li, timeNanos := t, durationNanos := d)
    requires r2 == r1.(mappings := r2.mappings)
    ensures r2 == r0.(mappings := r2.mappings, stringTable := st, locationIndices := li, timeNanos := t, durationNanos := d)
  {
  }

  /** A sample whose run ends the location-index list keeps the profile indexed. */
  lemma IndexedSample(p1: Profile, p0: Profile, nLocs: nat, nFuncs: nat, nIdx: nat, sz: nat, values: seq<int>)
    requires Indexed(p0, nLocs, nFuncs, nIdx)
    requires p1 == p0.(samples := p0.samples + [OSample(nIdx, sz, values)])
    ensures Indexed(p1, nLocs, nFuncs, nIdx + sz)
  {
  }

  lemma SliceOfAppend<T>(a: seq<T>, b: seq<T>)
    ensures (a + b)[|a|..|a| + |b|] == b
  {
  }

  lemma GrowsTrans(r0: Profile, r1: Profile, r2: Profile)
    requires Grows(r1, r0) && Grows(r2, r1)
    ensures Grows(r2, r0)
  {
  }

  lemma RefsGrow(p: Profile, n1: nat, n2: nat)
    requires Refs(p, n1) && n1 <= n2
    ensures Refs(p, n2)
  {
  }

  /** What emitLocation appends keeps the lists indexed. */
  lemma IndexedEmit(p0: Profile, fs: seq<OFunction>, loc: OLocation, nLocs: nat, nFuncs: nat, nIdx: nat)
    requires Indexed(p0, nLocs, nFuncs, nIdx)
    requires forall k :: 0 <= k < |fs| ==> fs[k].id == nFuncs + k
    requires loc.id == nLocs && forall j :: 0 <= j < |loc.lines| ==> loc.lines[j].functionId < nFuncs + |fs|
    ensures Indexed(p0.(functions := p0.functions + fs, locations := p0.locations + [loc]),
                    nLocs + 1, nFuncs + |fs|, nIdx)
  {
    var p1 := p0.(functions := p0.functions + fs, locations := p0.locations + [loc]);
    forall k | 0 <= k < |p1.functions| ensures p1.functions[k].id == k {
      if k < nFuncs {
        assert p1.functions[k] == p0.functions[k];
      } else {
        assert p1.functions[k] == fs[k - nFuncs];
      }
    }
    forall k, j | 0 <= k < |p1.locations| && 0 <= j < |p1.locations[k].lines|
      ensures p1.locations[k].lines[j].functionId < nFuncs + |fs|
    {
      if k < nLocs {
        assert p1.locations[k] == p0.locations[k];
      }
    }
  }

  /** What emitLocation appends keeps every string index in range. */
  lemma RefsEmit(p0: Profile, fs: seq<OFunction>, loc: OLocation, n: nat)
    requires Refs(p0, n)
    requires forall k :: 0 <= k < |fs| ==> fs[k].name < n && fs[k].systemName < n && fs[k].filename < n
    ensures Refs(p0.(functions := p0.functions + fs, locations := p0.locations + [loc]), n)
  {
    var p1 := p0.(functions := p0.functions + fs, locations := p0.locations + [loc]);
    forall k | 0 <= k < |p1.functions|
      ensures p1.functions[k].name < n && p1.functions[k].systemName < n && p1.functions[k].filename < n
    {
      if k < |p0.functions| {
        assert p1.functions[k] == p0.functions[k];
      } else {
        assert p1.functions[k] == fs[k - |p0.functions|];
      }
    }
  }

  /** emitLocation's Functions and Location, for the frame pass over
      frames, keep the profile's lists indexed and its string indices in
      range. */
  lemma EmitKeepsProfile(p0: Profile, fs: seq<OFunction>, loc: OLocation, funcs: map<string, nat>,
                         frames: seq<Frame>, generics: bool, p: FuncPass, strings: seq<string>, n0: nat, nIdx: nat)
    requires Indexed(p0, loc.id, |funcs|, nIdx) && Refs(p0, n0) && n0 <= |strings| && FuncsValid0(funcs)
    requires p == OFuncPassOf(funcs, frames, generics)
    requires FunctionsOK(fs, p.newFuncs, strings) && loc.lines == p.lines
    ensures var p1 := p0.(functions := p0.functions + fs, locations := p0.locations + [loc]);
      Indexed(p1, loc.id + 1, |p.funcs|, nIdx) && Refs(p1, |strings|)
  {
    OFuncPassMeaning(funcs, frames, generics);
    assert forall j :: 0 <= j < |loc.lines| ==> loc.lines[j].functionId < |p.funcs| by {
      forall j | 0 <= j < |loc.lines| ensures loc.lines[j].functionId < |p.funcs| {
        assert p.lines[j] == Line(p.funcs[frames[j].symbolName], frames[j].line);
      }
    }
    IndexedEmit(p0, fs, loc, loc.id, |funcs|, nIdx);
    RefsGrow(p0, n0, |strings|);
    RefsEmit(p0, fs, loc, |strings|);
  }

  /** In a string table grown from s0, the index of s is an old one exactly
      when s was interned in s0. */
  lemma IndexOld(s0: seq<string>, m0: map<string, nat>, s1: seq<string>, m1: map<string, nat>, i: nat, s: string)
    requires StringsValid(s0, m0) && StringsValid(s1, m1) && s0 <= s1 && Resolves(s1, i, s)
    ensures i < |s0| <==> s in m0
  {
    if i < |s0| {
      assert s0[i] == s;
    }
    if s in m0 {
      var j := m0[s];
      assert s1[j] == s;
      assert m1[s1[j]] == j && m1[s1[i]] == i;
    }
  }

  /** The function ids after emitLocation ran on each of the decks, in order. */
  ghost function OFuncsAfter(funcs: map<string, nat>, decks: seq<DeckState>, generics: bool): map<string, nat>
  {
    if decks == [] then funcs
    else OFuncPassOf(OFuncsAfter(funcs, decks[..|decks| - 1], generics), decks[|decks| - 1].frames, generics).funcs
  }

  /** Emitting a + b is emitting a and then b. */
  lemma {:induction false} OFuncsAfterAppend(funcs: map<string, nat>, a: seq<DeckState>, b: seq<DeckState>, generics: bool)
    ensures OFuncsAfter(funcs, a + b, generics) == OFuncsAfter(OFuncsAfter(funcs, a, generics), b, generics)
    decreases |b|
  {
    if b == [] {
      assert a + b == a;
    } else {
      assert (a + b)[..|a + b| - 1] == a + b[..|b| - 1];
      OFuncsAfterAppend(funcs, a, b[..|b| - 1], generics);
    }
  }

  /** A step that emits no deck leaves the ids and the mappings as they
      were, and one that emits the deck d runs the pass over it: either way,
      what the decks so far and the step's together leave. */
  lemma OAfterStep(f0: map<string, nat>, m0: seq<MemMap>, prev: seq<DeckState>, ds: seq<DeckState>, d: DeckState,
                   f1: map<string, nat>, m1: seq<MemMap>, f2: map<string, nat>, m2: seq<MemMap>, generics: bool)
    requires f1 == OFuncsAfter(f0, prev, generics) && m1 == MemAfter(m0, prev)
    requires ds == [] || ds == DeckList(d)
    requires ds == [] ==> f2 == f1 && m2 == m1
    requires ds != [] ==> d.pcs != [] && f2 == OFuncPassOf(f1, d.frames, generics).funcs
                          && m2 == Attributed(m1, d.pcs[0], d.symbolizeResult)
    ensures f2 == OFuncsAfter(f0, prev + ds, generics) && m2 == MemAfter(m0, prev + ds)
  {
    OAfterDeck(f1, m1, d, generics);
    OFuncsAfterAppend(f0, prev, ds, generics);
    MemAfterAppend(m0, prev, ds);
  }

  /** Emitting DeckList(d): nothing for an empty deck, otherwise one pass. */
  lemma OAfterDeck(funcs: map<string, nat>, mem: seq<MemMap>, d: DeckState, generics: bool)
    ensures d.pcs == [] ==> OFuncsAfter(funcs, DeckList(d), generics) == funcs && MemAfter(mem, DeckList(d)) == mem
    ensures d.pcs != [] ==>
      OFuncsAfter(funcs, DeckList(d), generics) == OFuncPassOf(funcs, d.frames, generics).funcs
      && MemAfter(mem, DeckList(d)) == Attributed(mem, d.pcs[0], d.symbolizeResult)
  {
    assert [d][..0] == [];
  }

  /** newOTLPProtoBuilder: the mappings from opt.Mapping, shared with opt,
      and a builder around them with the header for stc set. */
  method NewOTLPBuilder(stc: ProfileConfig, opt: ProfileBuilderOptions, procMaps: string,
                        buildID: string -> string, start: int)
    returns (b: OTLPBuilder)
    modifies opt`mem
    ensures fresh(b) && fresh(b.deck) && b.Valid() && b.stc == stc && b.opt == opt && b.start == start
    ensures opt.mem == b.mem
    ensures old(opt.mem) == null || !opt.lazyMapping ==> fresh(b.mem) && ReadFrom(b.mem[..], procMaps, buildID)
    ensures old(opt.mem) != null && opt.lazyMapping ==> b.mem == old(opt.mem)
    ensures b.locIndex == [] && b.locs == map[] && b.funcs == map[] && b.deck.State() == EmptyDeck
    ensures OHeaderOK(b.res, stc, b.strings)
    ensures b.res == EmptyProfile.(periodType := b.res.periodType, period := b.res.period,
                                   sampleTypes := b.res.sampleTypes, defaultSampleType := b.res.defaultSampleType)
  {
    var m := opt.Mapping(procMaps, buildID);
    b := new OTLPBuilder(stc, opt, m, start);
  }

  class OTLPBuilder {
    const stc: ProfileConfig
    const opt: ProfileBuilderOptions
    /** The mappings, shared with opt.mem. */
    const mem: array<MemMap>
    const deck: PCDeck
    const start: int
    /** The location ids of all samples, one run per sample. */
    var locIndex: seq<int>
    var strings: seq<string>
    var stringMap: map<string, nat>
    var locs: Locs
    var funcs: map<string, nat>
    var res: Profile

    ghost predicate Valid()
      reads this, deck
    {
      StringsValid(strings, stringMap) && WalkInv(locs, deck.State(), 0) && FuncsValid0(funcs)
      && Indexed(res, |locs|, |funcs|, |locIndex|) && Refs(res, |strings|)
    }

    /** The builder newOTLPProtoBuilder makes around the mappings mem: an
        empty cache, a string table holding only "", and a profile holding
        only the header for stc. */
    constructor (stc: ProfileConfig, opt: ProfileBuilderOptions, mem: array<MemMap>, start: int)
      ensures Valid() && fresh(deck) && this.stc == stc && this.opt == opt && this.mem == mem
      ensures this.start == start
      ensures locIndex == [] && locs == map[] && funcs == map[] && deck.State() == EmptyDeck
      ensures OHeaderOK(res, stc, strings)
      ensures res == EmptyProfile.(periodType := res.periodType, period := res.period,
                                   sampleTypes := res.sampleTypes, defaultSampleType := res.defaultSampleType)
    {
      this.stc := stc;
      this.opt := opt;
      this.mem := mem;
      this.start := start;
      deck := new PCDeck();
      locIndex := [];
      strings := [""];
      stringMap := map["" := 0];
      locs := map[];
      funcs := map[];
      res := EmptyProfile;
      new;
      WriteHeader();
    }

    /** The header: period type, period, the sample types in order and the
        default sample type when it is not empty. */
    method WriteHeader()
      requires StringsValid(strings, stringMap) && res == EmptyProfile
      modifies this`strings, this`stringMap, this`res
      ensures StringsValid(strings, stringMap) && OHeaderOK(res, stc, strings) && Refs(res, |strings|)
      ensures res == EmptyProfile.(periodType := res.periodType, period := res.period,
                                   sampleTypes := res.sampleTypes, defaultSampleType := res.defaultSampleType)
    {
      var pt := ValueTypeOf(stc.periodType);
      res := res.(periodType := pt, period := stc.period);
      ghost var s1 := strings;
      WriteSampleTypes();
      if stc.defaultSampleType != "" {
        ghost var s2 := strings;
        var d := StringIndex(stc.defaultSampleType);
        res := res.(defaultSampleType := d);
        forall k | 0 <= k < |res.sampleTypes|
          ensures OValueTypeOK(res.sampleTypes[k], stc.sampleTypes[k], strings)
        {
          assert OValueTypeOK(res.sampleTypes[k], stc.sampleTypes[k], s2);
        }
      }
    }

    /** An OTLP ValueType naming vt: its type, then its unit, interned. */
    method ValueTypeOf(vt: ValueType) returns (v: OValueType)
      requires StringsValid(strings, stringMap)
      modifies this`strings, this`stringMap
      ensures StringsValid(strings, stringMap) && old(strings) <= strings && OValueTypeOK(v, vt, strings)
    {
      var t := StringIndex(vt.typ);
      var u := StringIndex(vt.unit);
      v := OValueType(t, u);
    }

    /** The loop over stc.SampleType: one SampleType each, in order. */
    method WriteSampleTypes()
      requires StringsValid(strings, stringMap) && res.sampleTypes == []
      modifies this`strings, this`stringMap, this`res
      ensures StringsValid(strings, stringMap) && old(strings) <= strings
      ensures res == old(res).(sampleTypes := res.sampleTypes) && |res.sampleTypes| == |stc.sampleTypes|
      ensures forall k :: 0 <= k < |stc.sampleTypes| ==> OValueTypeOK(res.sampleTypes[k], stc.sampleTypes[k], strings)
    {
      var i := 0;
      while i < |stc.sampleTypes|
        invariant 0 <= i <= |stc.sampleTypes| && |res.sampleTypes| == i
        invariant StringsValid(strings, stringMap) && old(strings) <= strings
        invariant res == old(res).(sampleTypes := res.sampleTypes)
        invariant forall k :: 0 <= k < i ==> OValueTypeOK(res.sampleTypes[k], stc.sampleTypes[k], strings)
      {
        ghost var s0, sts0 := strings, res.sampleTypes;
        var v := ValueTypeOf(stc.sampleTypes[i]);
        res := res.(sampleTypes := res.sampleTypes + [v]);
        forall k | 0 <= k < i ensures OValueTypeOK(res.sampleTypes[k], stc.sampleTypes[k], strings) {
          assert res.sampleTypes[k] == sts0[k];
          assert OValueTypeOK(sts0[k], stc.sampleTypes[k], s0);
        }
        i := i + 1;
      }
    }

    /** stringIndex: the index of s, appending s to the table when it is new;
        the table only grows, so earlier indices keep resolving. */
    method StringIndex(s: string) returns (i: nat)
      requires StringsValid(strings, stringMap)
      modifies this`strings, this`stringMap
      ensures StringsValid(strings, stringMap) && Resolves(strings, i, s) && old(strings) <= strings
      ensures s in old(stringMap) ==> i == old(stringMap)[s] && strings == old(strings)
      ensures s !in old(stringMap) ==> i == |old(strings)| && strings == old(strings) + [s]
    {
      if s in stringMap {
        i := stringMap[s];
      } else {
        i := |strings|;
        strings := strings + [s];
        stringMap := stringMap[s := i];
      }
    }

    /** Sample: appends locIds to the location-index list and a Sample
        whose run is exactly those ids, with a copy of values; the third
        argument is ignored. */
    method Sample(values: seq<int>, locIds: seq<nat>, blockSize: int)
      requires Valid()
      modifies this`locIndex, this`res
      ensures Valid() && locIndex == old(locIndex) + locIds
      ensures res == old(res).(samples := old(res).samples + [OSample(|old(locIndex)|, |locIds|, values)])
      ensures var s := res.samples[|res.samples| - 1];
        locIndex[s.locationsStartIndex..s.locationsStartIndex + s.locationsLength] == locIds
    {
      ghost var r0, x0 := res, locIndex;
      var start := |locIndex|;
      var sz := |locIds|;
      var i := 0;
      while i < |locIds|
        invariant 0 <= i <= |locIds| && locIndex == x0 + locIds[..i] && res == r0
      {
        locIndex := locIndex + [locIds[i]];
        i := i + 1;
      }
      assert locIds[..|locIds|] == locIds;
      res := res.(samples := res.samples + [OSample(start, sz, values)]);
      IndexedSample(res, r0, |locs|, |funcs|, start, sz, values);
      RefsFrame(res, r0, |strings|);
      SliceOfAppend(x0, locIds);
    }

    /** emitLocation's frame loop: OFuncPassOf, computed in place on funcs. */
    method RecordFunctions(frames: seq<Frame>) returns (lines: seq<Line>, newFuncs: seq<NewFunc>)
      requires FuncsValid0(funcs)
      modifies this`funcs
      ensures FuncPass(funcs, lines, newFuncs) == OFuncPassOf(old(funcs), frames, opt.genericsFrames)
      ensures FuncsValid0(funcs)
    {
      lines, newFuncs := [], [];
      var i := 0;
      while i < |frames|
        invariant 0 <= i <= |frames|
        invariant FuncPass(funcs, lines, newFuncs) == OFuncPassOf(old(funcs), frames[..i], opt.genericsFrames)
      {
        ghost var p0 := FuncPass(funcs, lines, newFuncs);
        var frame := frames[i];
        var funcName := frame.symbolName;
        var funcID: nat;
        if funcName in funcs {
          funcID := funcs[funcName];
        } else {
          funcID := |funcs|;
          funcs := funcs[funcName := funcID];
          var name := if opt.genericsFrames then funcName else frame.funcName;
          newFuncs := newFuncs + [NewFunc(funcID, name, frame.file, frame.startLine)];
        }
        lines := lines + [Line(funcID, frame.line)];
        assert FuncPass(funcs, lines, newFuncs) == OFuncStep(p0, frame, opt.genericsFrames);
        assert frames[..i + 1][..i] == frames[..i];
        i := i + 1;
      }
      assert frames[..|frames|] == frames;
      OFuncPassMeaning(old(funcs), frames, opt.genericsFrames);
    }

    /** emitLocation's mapping loop: the first mapping covering addr gives
        the index and has sr OR-ed into its flag; 0 when none covers it. */
    method AttributeMapping(addr: Addr, sr: SymbolizeFlag) returns (mappingIndex: nat)
      modifies mem
      ensures mappingIndex == MappingIndexOf(old(mem[..]), addr)
      ensures mem[..] == Attributed(old(mem[..]), addr, sr)
    {
      mappingIndex := 0;
      var i := 0;
      while i < mem.Length
        invariant 0 <= i <= mem.Length && mem[..] == old(mem[..])
        invariant forall j :: 0 <= j < i ==> !Covers(mem[j], addr)
      {
        if (mem[i].start <= addr && addr < mem[i].end) || mem[i].fake {
          mappingIndex := i;
          var m := mem[i];
          m := m.(funcs := m.funcs | sr);
          mem[i] := m;
          return;
        }
        i := i + 1;
      }
    }

    /** One Function: the name interned twice (name and system name), then
        the file. */
    method FunctionOf(fn: NewFunc) returns (m: OFunction)
      requires StringsValid(strings, stringMap)
      modifies this`strings, this`stringMap
      ensures StringsValid(strings, stringMap) && old(strings) <= strings && OFunctionOK(m, fn, strings)
    {
      var name := StringIndex(fn.name);
      var systemName := StringIndex(fn.name);
      var filename := StringIndex(fn.file);
      m := OFunction(fn.id, name, systemName, filename, fn.startLine);
    }

    /** emitLocation's last loop: one Function per new function, in order,
        appended to the profile. */
    method WriteFunctions(newFuncs: seq<NewFunc>) returns (ghost fs: seq<OFunction>)
      requires StringsValid(strings, stringMap)
      modifies this`strings, this`stringMap, this`res
      ensures StringsValid(strings, stringMap) && old(strings) <= strings
      ensures res == old(res).(functions := old(res).functions + fs) && FunctionsOK(fs, newFuncs, strings)
    {
      fs := [];
      var i := 0;
      while i < |newFuncs|
        invariant 0 <= i <= |newFuncs| && |fs| == i
        invariant StringsValid(strings, stringMap) && old(strings) <= strings
        invariant res == old(res).(functions := old(res).functions + fs)
        invariant forall k :: 0 <= k < i ==> OFunctionOK(fs[k], newFuncs[k], strings)
      {
        ghost var s0, fs0 := strings, fs;
        var m := FunctionOf(newFuncs[i]);
        res := res.(functions := res.functions + [m]);
        fs := fs + [m];
        forall k | 0 <= k < i ensures OFunctionOK(fs[k], newFuncs[k], strings) {
          assert fs[k] == fs0[k];
          assert OFunctionOK(fs0[k], newFuncs[k], s0);
        }
        i := i + 1;
      }
    }

    /** The bookkeeping of emitLocation for a non-empty deck d: caches d as
        location |locs| under its first PC, records the functions of its
        frames and attributes it to a mapping. */
    method RecordLocation(d: DeckState) returns (id: nat, lines: seq<Line>, newFuncs: seq<NewFunc>, mappingIndex: nat)
      requires d.pcs != [] && DeckInv(d) && FuncsValid0(funcs)
      modifies this`locs, this`funcs, mem
      ensures FuncsValid0(funcs) && id == |old(locs)| && (d.pcs[0] !in old(locs) ==> |locs| == id + 1)
      ensures var e := Locations.Emit(old(locs), d, 0); locs == e.locs && e.ids == [id]
      ensures FuncPass(funcs, lines, newFuncs) == OFuncPassOf(old(funcs), d.frames, opt.genericsFrames)
      ensures mem[..] == Attributed(old(mem[..]), d.pcs[0], d.symbolizeResult)
      ensures mappingIndex == MappingIndexOf(old(mem[..]), d.pcs[0])
    {
      var addr := d.pcs[0];
      id := |locs|;
      locs := locs[addr := LocInfo(id, d.pcs, d.frames[..d.firstPCFrames], d.firstPCSymbolizeResult)];
      lines, newFuncs := RecordFunctions(d.frames);
      mappingIndex := AttributeMapping(addr, d.symbolizeResult);
    }

    /** emitLocation: (0, false) on an empty deck; otherwise EmitDeck,
        (id, true), and the deck is reset. */
    method EmitLocation() returns (id: nat, ok: bool, ghost fs: seq<OFunction>)
      requires Valid()
      modifies this`locs, this`funcs, this`strings, this`stringMap, this`res, deck, mem
      ensures Valid() && deck.State() == EmptyDeck && old(strings) <= strings && Grows(res, old(res))
      ensures var e := Locations.Emit(old(locs), old(deck.State()), 0);
        locs == e.locs && (ok <==> e.ids != []) && (ok ==> e.ids == [id]) && (!ok ==> id == 0)
      ensures var d := old(deck.State()); d.pcs == [] ==>
        res == old(res) && funcs == old(funcs) && strings == old(strings) && mem[..] == old(mem[..])
      ensures var d := old(deck.State()); d.pcs != [] ==>
        var p := OFuncPassOf(old(funcs), d.frames, opt.genericsFrames);
        funcs == p.funcs && mem[..] == Attributed(old(mem[..]), d.pcs[0], d.symbolizeResult)
        && res.functions == old(res.functions) + fs && FunctionsOK(fs, p.newFuncs, strings)
        && res.locations == old(res.locations) +
             [OLocation(id, d.frames[0].pc, p.lines, MappingIndexOf(old(mem[..]), d.pcs[0]))]
    {
      if |deck.pcs| == 0 {
        return 0, false, [];
      }
      ghost var d, r0, n0 := deck.State(), res, |strings|;
      id, fs := EmitDeck(deck.State());
      ghost var p := OFuncPassOf(old(funcs), d.frames, opt.genericsFrames);
      EmitKeepsProfile(r0, fs, res.locations[id], old(funcs), d.frames, opt.genericsFrames, p, strings, n0, |locIndex|);
      ok := true;
      deck.Reset();
    }

    /** emitLocation as the walk over a stack sees it: the cache, the
        function ids and the mappings it leaves, and a profile that only
        grows. */
    method EmitInWalk() returns (id: nat, ok: bool)
      requires Valid()
      modifies this`locs, this`funcs, this`strings, this`stringMap, this`res, deck, mem
      ensures Valid() && deck.State() == EmptyDeck && Grows(res, old(res))
      ensures var e := Locations.Emit(old(locs), old(deck.State()), 0);
        locs == e.locs && (ok <==> e.ids != []) && (ok ==> e.ids == [id])
      ensures var d := old(deck.State()); d.pcs == [] ==> funcs == old(funcs) && mem[..] == old(mem[..])
      ensures var d := old(deck.State()); d.pcs != [] ==>
        funcs == OFuncPassOf(old(funcs), d.frames, opt.genericsFrames).funcs
        && mem[..] == Attributed(old(mem[..]), d.pcs[0], d.symbolizeResult)
    {
      ghost var fs;
      id, ok, fs := EmitLocation();
    }

    /** emitLocation for the non-empty deck d, up to the deferred reset: the
        new Functions and then the Location are appended to the profile. */
    method EmitDeck(d: DeckState) returns (id: nat, ghost fs: seq<OFunction>)
      requires d.pcs != [] && WalkInv(locs, d, 0) && StringsValid(strings, stringMap) && FuncsValid0(funcs)
      modifies this`locs, this`funcs, this`strings, this`stringMap, this`res, mem
      ensures LocsValid(locs, 0) && StringsValid(strings, stringMap) && FuncsValid0(funcs) && old(strings) <= strings
      ensures var e := Locations.Emit(old(locs), d, 0); locs == e.locs && e.ids == [id]
      ensures id == |old(locs)| && |locs| == id + 1
      ensures var p := OFuncPassOf(old(funcs), d.frames, opt.genericsFrames);
        funcs == p.funcs && mem[..] == Attributed(old(mem[..]), d.pcs[0], d.symbolizeResult)
        && FunctionsOK(fs, p.newFuncs, strings)
        && res == old(res).(functions := old(res.functions) + fs, locations := old(res.locations) +
             [OLocation(id, d.frames[0].pc, p.lines, MappingIndexOf(old(mem[..]), d.pcs[0]))])
    {
      EmitValid(locs, d, 0);
      var lines, newFuncs, mappingIndex;
      id, lines, newFuncs, mappingIndex := RecordLocation(d);
      var loc := OLocation(id, d.frames[0].pc, lines, mappingIndex);
      fs := AppendLocation(loc, newFuncs);
    }

    /** The end of emitLocation: the new Functions, then the Location. */
    method AppendLocation(loc: OLocation, newFuncs: seq<NewFunc>) returns (ghost fs: seq<OFunction>)
      requires StringsValid(strings, stringMap)
      modifies this`strings, this`stringMap, this`res
      ensures StringsValid(strings, stringMap) && old(strings) <= strings && FunctionsOK(fs, newFuncs, strings)
      ensures res == old(res).(functions := old(res.functions) + fs, locations := old(res.locations) + [loc])
    {
      fs := WriteFunctions(newFuncs);
      res := res.(locations := res.locations + [loc]);
    }

    /** One iteration of appendLocsForStack's loop over stk[0]: Step, with
        the deck, the cache and allFrames doing the work; the function ids
        and the mappings are what emitting the decks of that step leaves. */
    method WalkStep(stk: seq<Addr>, callers: Addr -> seq<Frame>,
                    ghost f0: map<string, nat>, ghost m0: seq<MemMap>, ghost prev: seq<DeckState>)
      returns (ids: seq<nat>, rest: seq<Addr>, ghost done: seq<DeckState>)
      requires Valid() && stk != []
      requires funcs == OFuncsAfter(f0, prev, opt.genericsFrames) && mem[..] == MemAfter(m0, prev)
      modifies this`locs, this`funcs, this`strings, this`stringMap, this`res, deck, mem
      ensures Valid() && Grows(res, old(res))
      ensures |rest| < |stk|
      ensures var w := LocWalk(locs, deck.State(), rest, 0, callers);
        LocWalk(old(locs), old(deck.State()), stk, 0, callers) == Walk(ids + w.ids, w.locs)
      ensures var ds := StepDecks(old(locs), old(deck.State()), stk, 0, callers);
        done == prev + ds
        && funcs == OFuncsAfter(f0, done, opt.genericsFrames) && mem[..] == MemAfter(m0, done)
        && WalkDecks(old(locs), old(deck.State()), stk, 0, callers) == ds + WalkDecks(locs, deck.State(), rest, 0, callers)
    {
      WalkUnfold(locs, deck.State(), stk, 0, callers);
      ghost var ds := StepDecks(locs, deck.State(), stk, 0, callers);
      ghost var f1, m1, d := funcs, mem[..], deck.State();
      if stk[0] in locs {
        ids, rest := StepCached(stk, callers);
      } else {
        ids, rest := StepUncached(stk, callers);
      }
      done := prev + ds;
      OAfterStep(f0, m0, prev, ds, d, f1, m1, funcs, mem[..], opt.genericsFrames);
    }

    /** The loop body for a PC already in the cache: the deck takes its
        cached frames as inlined ones, or the deck is emitted and the cached
        id follows, skipping the PCs of that location. */
    method StepCached(stk: seq<Addr>, callers: Addr -> seq<Frame>) returns (ids: seq<nat>, rest: seq<Addr>)
      requires Valid() && stk != [] && stk[0] in locs
      modifies this`locs, this`funcs, this`strings, this`stringMap, this`res, deck, mem
      ensures Valid() && Grows(res, old(res))
      ensures var s := Step(old(locs), old(deck.State()), stk, 0, callers);
        ids == s.ids && locs == s.locs && deck.State() == s.deck && rest == s.stk
      ensures var d := old(deck.State()); StepDecks(old(locs), d, stk, 0, callers) == [] ==>
        funcs == old(funcs) && mem[..] == old(mem[..])
      ensures var d := old(deck.State()); StepDecks(old(locs), d, stk, 0, callers) != [] ==>
        d.pcs != [] && funcs == OFuncPassOf(old(funcs), d.frames, opt.genericsFrames).funcs
        && mem[..] == Attributed(old(mem[..]), d.pcs[0], d.symbolizeResult)
    {
      StepKeeps(locs, deck.State(), stk, 0, callers);
      ghost var ds := StepDecks(locs, deck.State(), stk, 0, callers);
      var addr := stk[0];
      var l := locs[addr];
      if |deck.pcs| > 0 {
        var added := deck.TryAdd(addr, l.firstPCFrames, l.firstPCSymbolizeResult);
        if added {
          assert ds == [];
          return [], stk[1..];
        }
      }
      assert ds == DeckList(deck.State());
      var id, ok := EmitInWalk();
      ids := if ok then [id] else [];
      ids := ids + [l.id];
      return ids, Skip(stk, |l.pcs|);
    }

    /** The loop body for a PC not in the cache: allFrames expands it; goexit
        emits the deck, an inlined frame joins it, and otherwise the deck is
        emitted and the PC either turns out cached or starts the next deck. */
    method StepUncached(stk: seq<Addr>, callers: Addr -> seq<Frame>) returns (ids: seq<nat>, rest: seq<Addr>)
      requires Valid() && stk != [] && stk[0] !in locs
      modifies this`locs, this`funcs, this`strings, this`stringMap, this`res, deck, mem
      ensures Valid() && Grows(res, old(res))
      ensures var s := Step(old(locs), old(deck.State()), stk, 0, callers);
        ids == s.ids && locs == s.locs && deck.State() == s.deck && rest == s.stk
      ensures var d := old(deck.State()); StepDecks(old(locs), d, stk, 0, callers) == [] ==>
        funcs == old(funcs) && mem[..] == old(mem[..])
      ensures var d := old(deck.State()); StepDecks(old(locs), d, stk, 0, callers) != [] ==>
        d.pcs != [] && funcs == OFuncPassOf(old(funcs), d.frames, opt.genericsFrames).funcs
        && mem[..] == Attributed(old(mem[..]), d.pcs[0], d.symbolizeResult)
    {
      StepKeeps(locs, deck.State(), stk, 0, callers);
      ghost var ds := StepDecks(locs, deck.State(), stk, 0, callers);
      var addr := stk[0];
      var frames, symbolizeResult := AllFrames(addr, callers(addr));
      if |frames| == 0 {
        assert ds == DeckList(deck.State());
        var id, ok;
        ghost var fs;
        id, ok, fs := EmitLocation();
        ids := if ok then [id] else [];
        return ids, stk[1..];
      }
      var added := deck.TryAdd(addr, frames, symbolizeResult);
      if added {
        assert ds == [];
        return [], stk[1..];
      }
      assert ds == DeckList(deck.State());
      ids, rest := Restart(stk, frames, symbolizeResult);
    }

    /** The end of the loop body for an uncached PC the deck rejected: the
        deck is emitted; if that cached the PC, its id follows and the PCs of
        its location are skipped, otherwise it starts the next deck. */
    method Restart(stk: seq<Addr>, frames: seq<Frame>, sr: SymbolizeFlag) returns (ids: seq<nat>, rest: seq<Addr>)
      requires Valid() && stk != [] && stk[0] !in locs && frames != []
      modifies this`locs, this`funcs, this`strings, this`stringMap, this`res, deck, mem
      ensures Valid() && Grows(res, old(res))
      ensures var e := Locations.Emit(old(locs), old(deck.State()), 0);
        locs == e.locs
        && (stk[0] in e.locs ==>
              ids == e.ids + [e.locs[stk[0]].id] && deck.State() == EmptyDeck && rest == Skip(stk, |e.locs[stk[0]].pcs|))
        && (stk[0] !in e.locs ==>
              ids == e.ids && deck.State() == Added(EmptyDeck, stk[0], frames, sr) && rest == stk[1..])
      ensures var d := old(deck.State()); d.pcs == [] ==> funcs == old(funcs) && mem[..] == old(mem[..])
      ensures var d := old(deck.State()); d.pcs != [] ==>
        var p := OFuncPassOf(old(funcs), d.frames, opt.genericsFrames);
        funcs == p.funcs && mem[..] == Attributed(old(mem[..]), d.pcs[0], d.symbolizeResult)
    {
      var id, ok := EmitInWalk();
      ids := if ok then [id] else [];
      var more;
      more, rest := Resume(stk, frames, sr);
      if more != [] {
        ids := ids + more;
      }
    }

    /** What Restart does once the deck is emitted and empty: the id of the
        PC if that cached it, otherwise the PC starts the next deck. */
    method Resume(stk: seq<Addr>, frames: seq<Frame>, sr: SymbolizeFlag) returns (ids: seq<nat>, rest: seq<Addr>)
      requires Valid() && stk != [] && frames != [] && deck.State() == EmptyDeck
      modifies deck
      ensures Valid()
      ensures stk[0] in locs ==>
        ids == [locs[stk[0]].id] && deck.State() == EmptyDeck && rest == Skip(stk, |locs[stk[0]].pcs|)
      ensures stk[0] !in locs ==>
        ids == [] && deck.State() == Added(EmptyDeck, stk[0], frames, sr) && rest == stk[1..]
    {
      var addr := stk[0];
      if addr in locs {
        var l := locs[addr];
        return [l.id], Skip(stk, |l.pcs|);
      }
      AddedInv(EmptyDeck, addr, frames, sr);
      var added := deck.TryAdd(addr, frames, sr);
      assert added;
      return [], stk[1..];
    }

    /** LocsForStack (appendLocsForStack): resets the deck, expands the final
        inline frame of stk (runtime_expandFinalInlineFrame is the parameter
        expand), walks the expanded stack and emits what is left in the
        deck. The ids returned are those of LocWalk from the old cache with
        ids from 0; each is the position of its Location in the profile. The
        decks the walk emits are cached under their first PCs with the next
        ids in order, and the function ids and the mappings are what
        emitting them in order leaves. */
    method LocsForStack(stk: seq<Addr>, expand: seq<Addr> -> seq<Addr>, callers: Addr -> seq<Frame>)
      returns (newLocs: seq<nat>)
      requires Valid()
      modifies this`locs, this`funcs, this`strings, this`stringMap, this`res, deck, mem
      ensures Valid() && deck.State() == EmptyDeck && Grows(res, old(res))
      ensures var w := LocWalk(old(locs), EmptyDeck, expand(stk), 0, callers);
        newLocs == w.ids && locs == w.locs
      ensures forall i :: 0 <= i < |newLocs| ==>
        newLocs[i] < |res.locations| && res.locations[newLocs[i]].id == newLocs[i]
      ensures var ds := WalkDecks(old(locs), EmptyDeck, expand(stk), 0, callers);
        CachedAt(locs, ds, |old(locs)|)
        && funcs == OFuncsAfter(old(funcs), ds, opt.genericsFrames) && mem[..] == MemAfter(old(mem[..]), ds)
    {
      deck.Reset();
      var s := expand(stk);
      WalkKeeps(locs, EmptyDeck, s, 0, callers);
      WalkCaches(locs, EmptyDeck, s, 0, callers);
      newLocs := WalkStack(s, callers);
      IdsIndexed(locs, res, newLocs, |funcs|, |locIndex|);
    }

    /** appendLocsForStack's loop and the emitLocation after it: steps until
        the stack is used up, then emits what is left in the deck. The ids
        are those of LocWalk, and the function ids and the mappings are what
        emitting the decks of WalkDecks in order leaves. */
    method WalkStack(stk: seq<Addr>, callers: Addr -> seq<Frame>) returns (newLocs: seq<nat>)
      requires Valid()
      modifies this`locs, this`funcs, this`strings, this`stringMap, this`res, deck, mem
      ensures Valid() && deck.State() == EmptyDeck && Grows(res, old(res))
      ensures var w := LocWalk(old(locs), old(deck.State()), stk, 0, callers);
        newLocs == w.ids && locs == w.locs
      ensures var ds := WalkDecks(old(locs), old(deck.State()), stk, 0, callers);
        funcs == OFuncsAfter(old(funcs), ds, opt.genericsFrames) && mem[..] == MemAfter(old(mem[..]), ds)
    {
      newLocs := [];
      ghost var done := [];
      var s := stk;
      ghost var w := LocWalk(locs, deck.State(), s, 0, callers);
      ghost var wd := WalkDecks(locs, deck.State(), s, 0, callers);
      ghost var f0, m0 := funcs, mem[..];
      assert OFuncsAfter(f0, done, opt.genericsFrames) == f0 && MemAfter(m0, done) == m0;
      while |s| > 0
        invariant Valid() && Grows(res, old(res))
        invariant newLocs + LocWalk(locs, deck.State(), s, 0, callers).ids == w.ids
        invariant LocWalk(locs, deck.State(), s, 0, callers).locs == w.locs
        invariant done + WalkDecks(locs, deck.State(), s, 0, callers) == wd
        invariant funcs == OFuncsAfter(f0, done, opt.genericsFrames) && mem[..] == MemAfter(m0, done)
        decreases |s|
      {
        ghost var out0, done0, r0 := newLocs, done, res;
        ghost var sd := StepDecks(locs, deck.State(), s, 0, callers);
        var ids;
        ids, s, done := WalkStep(s, callers, f0, m0, done);
        GrowsTrans(old(res), r0, res);
        ghost var rest := LocWalk(locs, deck.State(), s, 0, callers);
        ghost var wB := WalkDecks(locs, deck.State(), s, 0, callers);
        newLocs := newLocs + ids;
        Chain(done0, sd, wB, done, done + wB);
        Chain(out0, ids, rest.ids, newLocs, newLocs + rest.ids);
      }
      assert s == [] && wd == done + DeckList(deck.State());
      ghost var r1 := res;
      ghost var out0, e := newLocs, Locations.Emit(locs, deck.State(), 0);
      var id, ok := FinishWalk(f0, m0, done);
      GrowsTrans(old(res), r1, res);
      if ok {
        newLocs := newLocs + [id];
      }
      assert newLocs == out0 + e.ids;
    }

    /** The emitLocation after appendLocsForStack's loop: the decks emitted
        so far and the one emitted here together give the function ids and
        the mappings. */
    method FinishWalk(ghost f0: map<string, nat>, ghost m0: seq<MemMap>, ghost done: seq<DeckState>)
      returns (id: nat, ok: bool)
      requires Valid()
      requires funcs == OFuncsAfter(f0, done, opt.genericsFrames) && mem[..] == MemAfter(m0, done)
      modifies this`locs, this`funcs, this`strings, this`stringMap, this`res, deck, mem
      ensures Valid() && deck.State() == EmptyDeck && Grows(res, old(res))
      ensures var e := Locations.Emit(old(locs), old(deck.State()), 0);
        locs == e.locs && (ok <==> e.ids != []) && (ok ==> e.ids == [id])
      ensures var all := done + DeckList(old(deck.State()));
        funcs == OFuncsAfter(f0, all, opt.genericsFrames) && mem[..] == MemAfter(m0, all)
    {
      ghost var f1, m1, d := funcs, mem[..], deck.State();
      id, ok := EmitInWalk();
      OAfterStep(f0, m0, done, DeckList(d), d, f1, m1, funcs, mem[..], opt.genericsFrames);
    }

    /** The Mapping for mapping k: id k + 1, file name and build id interned,
        HasFunctions when its flag is LookupTried alone. */
    method MappingOf(k: nat) returns (msg: OMapping)
      requires StringsValid(strings, stringMap) && k < mem.Length
      modifies this`strings, this`stringMap
      ensures StringsValid(strings, stringMap) && old(strings) <= strings && OMappingOK(msg, k, mem[k], strings)
    {
      var m := mem[k];
      var hasFunctions := m.funcs == LookupTried;
      var filename := StringIndex(m.file);
      var buildId := StringIndex(m.buildID);
      msg := OMapping(k + 1, m.start, m.end, m.offset, filename, buildId, hasFunctions);
    }

    /** Build's mapping loop: the Mapping list is replaced by one Mapping per
        mapping, in order. */
    method WriteMappings()
      requires StringsValid(strings, stringMap) && Refs(res, |strings|)
      modifies this`strings, this`stringMap, this`res
      ensures StringsValid(strings, stringMap) && old(strings) <= strings && Refs(res, |strings|)
      ensures res == old(res).(mappings := res.mappings) && |res.mappings| == mem.Length
      ensures forall k :: 0 <= k < mem.Length ==> OMappingOK(res.mappings[k], k, mem[k], strings)
    {
      ghost var r0, n0 := res, |strings|;
      res := res.(mappings := []);
      var i := 0;
      while i < mem.Length
        invariant 0 <= i <= mem.Length && |res.mappings| == i
        invariant StringsValid(strings, stringMap) && old(strings) <= strings
        invariant res == r0.(mappings := res.mappings)
        invariant forall k :: 0 <= k < i ==> OMappingOK(res.mappings[k], k, mem[k], strings)
      {
        ghost var s0, ms0 := strings, res.mappings;
        var m := MappingOf(i);
        res := res.(mappings := res.mappings + [m]);
        forall k | 0 <= k < i ensures OMappingOK(res.mappings[k], k, mem[k], strings) {
          assert res.mappings[k] == ms0[k];
          assert OMappingOK(ms0[k], k, mem[k], s0);
        }
        i := i + 1;
      }
      RefsGrow(r0, n0, |strings|);
      RefsMappings(res, r0, |strings|);
    }

    /** Build with the string table taken after the mapping names are
        interned: every string index of the profile, from the header, the
        functions and the mappings, lies in the table; now stands for
        time.Now() at the call. */
    method Build(now: int)
      requires Valid()
      modifies this`strings, this`stringMap, this`res
      ensures Valid() && old(strings) <= strings
      ensures res == old(res).(mappings := res.mappings, stringTable := strings, locationIndices := locIndex,
                               timeNanos := start, durationNanos := now - start)
      ensures |res.mappings| == mem.Length
      ensures forall k :: 0 <= k < mem.Length ==> OMappingOK(res.mappings[k], k, mem[k], res.stringTable)
      ensures Refs(res, |res.stringTable|)
    {
      ghost var r0 := res;
      res := res.(locationIndices := locIndex, timeNanos := start, durationNanos := now - start);
      ghost var r1 := res;
      RefsFrame(r1, r0, |strings|);
      WriteMappings();
      ghost var r2 := res;
      res := res.(stringTable := strings);
      BuildChain(r0, r1, r2, res, strings, locIndex, start, now - start);
      IndexedFrame(res, r0, |locs|, |funcs|, |locIndex|);
      RefsFrame(res, r2, |strings|);
    }

    /** Build as otlpbuilder.go writes it: the string table is taken before
        the mapping loop interns the file names and build ids, so the index
        of any of them that was not interned before lies past the end of the
        table. */
    method BuildAsWritten(now: int)
      requires Valid()
      modifies this`strings, this`stringMap, this`res
      ensures Valid() && old(strings) <= strings
      ensures res == old(res).(mappings := res.mappings, stringTable := old(strings), locationIndices := locIndex,
                               timeNanos := start, durationNanos := now - start)
      ensures |res.mappings| == mem.Length
      ensures forall k :: 0 <= k < mem.Length ==> OMappingOK(res.mappings[k], k, mem[k], strings)
      ensures forall k :: 0 <= k < mem.Length ==>
        (res.mappings[k].filename < |res.stringTable| <==> mem[k].file in old(stringMap))
        && (res.mappings[k].buildId < |res.stringTable| <==> mem[k].buildID in old(stringMap))
    {
      ghost var r0 := res;
      res := res.(stringTable := strings, locationIndices := locIndex, timeNanos := start,
                  durationNanos := now - start);
      ghost var r1, s0, m0 := res, strings, stringMap;
      RefsFrame(r1, r0, |strings|);
      WriteMappings();
      BuildAsWrittenChain(r0, r1, res, s0, locIndex, start, now - start);
      IndexedFrame(res, r0, |locs|, |funcs|, |locIndex|);
      forall k | 0 <= k < mem.Length
        ensures (res.mappings[k].filename < |res.stringTable| <==> mem[k].file in old(stringMap))
        ensures (res.mappings[k].buildId < |res.stringTable| <==> mem[k].buildID in old(stringMap))
      {
        IndexOld(s0, m0, strings, stringMap, res.mappings[k].filename, mem[k].file);
        IndexOld(s0, m0, strings, stringMap, res.mappings[k].buildId, mem[k].buildID);
      }
    }
  }
}
