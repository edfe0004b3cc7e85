/** The location walk shared by the pprof and OTLP profile builders
    (LocsForStack in proto.go, appendLocsForStack in otlpbuilder.go): a
    stack of return PCs is cut into locations, each the run of PCs that the
    deck merges as inlined frames of one call site, and every location is
    looked up in, or added to, a cache keyed by its first PC. The two
    builders differ only in the first location id: 1 in pprof, 0 in OTLP. */
module Locations {
  import opened Mapping
  import opened Runtime
  import opened Deck

  /** locInfo: the cached description of one emitted location. */
  datatype LocInfo = LocInfo(id: nat, pcs: seq<Addr>, firstPCFrames: seq<Frame>,
                             firstPCSymbolizeResult: SymbolizeFlag)

  type Locs = map<Addr, LocInfo>

  /** The ids in use. */
  ghost function IdsOf(locs: Locs): set<nat>
  {
    set a | a in locs :: locs[a].id
  }

  /** The cache a builder keeps: ids are base, base + 1, ... in insertion
      order, so they stay below base + |locs| and are pairwise distinct, and
      every entry covers at least one PC and one frame. */
  ghost predicate LocsValid(locs: Locs, base: nat)
  {
    (forall a :: a in locs ==>
       base <= locs[a].id < base + |locs| && locs[a].pcs != [] && locs[a].firstPCFrames != [])
    && (forall a, b :: a in locs && b in locs && a != b ==> locs[a].id != locs[b].id)
  }

  /** Between steps of a walk the deck's first PC is never cached: it was
      added on a cache miss, and the cache only changes when the deck is
      emitted and reset. */
  ghost predicate WalkInv(locs: Locs, d: DeckState, base: nat)
  {
    LocsValid(locs, base) && DeckInv(d) && (d.pcs != [] ==> d.pcs[0] !in locs)
  }

  /** locs2 keeps every entry of locs1. */
  ghost predicate Extends(locs2: Locs, locs1: Locs)
  {
    forall a :: a in locs1 ==> a in locs2 && locs2[a] == locs1[a]
  }

  /** The entry emitLocation caches for deck d: copies of the PCs, of the
      first PC's frames and of the first PC's flag. */
  function NewEntry(d: DeckState, id: nat): LocInfo
    requires d.firstPCFrames <= |d.frames|
  {
    LocInfo(id, d.pcs, d.frames[..d.firstPCFrames], d.firstPCSymbolizeResult)
  }

  datatype Emitted = Emitted(ids: seq<nat>, locs: Locs)

  /** emitLocation's effect on the location ids: nothing on an empty deck;
      otherwise the next id, base + |locs|, cached under the deck's first PC. */
  function Emit(locs: Locs, d: DeckState, base: nat): (e: Emitted)
    requires DeckInv(d)
    ensures |e.ids| <= 1
  {
    if d.pcs == [] then Emitted([], locs)
    else
      var id := |locs| + base;
      Emitted([id], locs[d.pcs[0] := NewEntry(d, id)])
  }

  /** Caching a new entry under a fresh key with the next id keeps the
      cache valid and every old entry, and the id was not in use. */
  lemma AddFresh(locs: Locs, k: Addr, v: LocInfo, base: nat)
    requires LocsValid(locs, base) && k !in locs
    requires v.id == base + |locs| && v.pcs != [] && v.firstPCFrames != []
    ensures LocsValid(locs[k := v], base) && Extends(locs[k := v], locs)
    ensures v.id !in IdsOf(locs) && v.id in IdsOf(locs[k := v])
  {
    var m := locs[k := v];
    assert |m| == |locs| + 1;
    forall a | a in m ensures base <= m[a].id < base + |m| && m[a].pcs != [] && m[a].firstPCFrames != [] {
      if a != k {
        assert m[a] == locs[a];
      }
    }
    forall a, b | a in m && b in m && a != b ensures m[a].id != m[b].id {
      if a != k && b != k {
        assert m[a] == locs[a] && m[b] == locs[b];
      }
    }
    assert m[k].id == v.id;
  }

  /** Emitting keeps the cache valid. */
  lemma EmitValid(locs: Locs, d: DeckState, base: nat)
    requires WalkInv(locs, d, base)
    ensures LocsValid(Emit(locs, d, base).locs, base)
  {
    if d.pcs != [] {
      AddFresh(locs, d.pcs[0], NewEntry(d, |locs| + base), base);
    }
  }

  /** Emitting keeps the cache valid and every old entry, and the id it
      returns is a fresh one, now cached. */
  lemma EmitKeeps(locs: Locs, d: DeckState, base: nat)
    requires WalkInv(locs, d, base)
    ensures var e := Emit(locs, d, base);
      LocsValid(e.locs, base) && Extends(e.locs, locs)
      && forall i :: 0 <= i < |e.ids| ==> e.ids[i] in IdsOf(e.locs) && e.ids[i] !in IdsOf(locs)
  {
    if d.pcs != [] {
      AddFresh(locs, d.pcs[0], NewEntry(d, |locs| + base), base);
    }
  }

  /** stk[len(l.pcs):], clamped to the end of the stack. */
  function Skip(stk: seq<Addr>, n: nat): (r: seq<Addr>)
    ensures n > 0 && stk != [] ==> |r| < |stk|
  {
    if n <= |stk| then stk[n..] else []
  }

  datatype StepResult = StepResult(ids: seq<nat>, locs: Locs, deck: DeckState, stk: seq<Addr>)

  /** One iteration of the walk over stk[0], with callers(a) the frames the
      runtime yields for PC a:
      - a cached PC that the non-empty deck takes as an inlined frame joins
        the deck;
      - another cached PC emits the deck, then contributes its cached id and
        skips the PCs that location covers;
      - an uncached PC that expands to nothing (goexit) emits the deck;
      - an uncached PC that the deck takes joins it;
      - otherwise the deck is emitted, and the PC is either now cached (it
        was the deck's first PC) or starts the next deck. */
  function Step(locs: Locs, d: DeckState, stk: seq<Addr>, base: nat,
                callers: Addr -> seq<Frame>): (s: StepResult)
    requires WalkInv(locs, d, base) && stk != []
    ensures |s.stk| < |stk|
  {
    var addr := stk[0];
    if addr in locs && d.pcs != [] && Mergeable(d.frames, locs[addr].firstPCFrames) then
      var l := locs[addr];
      StepResult([], locs, Added(d, addr, l.firstPCFrames, l.firstPCSymbolizeResult), stk[1..])
    else if addr in locs then
      var l := locs[addr];
      var e := Emit(locs, d, base);
      StepResult(e.ids + [l.id], e.locs, EmptyDeck, Skip(stk, |l.pcs|))
    else
      var x := Expand(addr, callers(addr));
      if x.frames == [] then
        var e := Emit(locs, d, base);
        StepResult(e.ids, e.locs, EmptyDeck, stk[1..])
      else if Mergeable(d.frames, x.frames) then
        StepResult([], locs, Added(d, addr, x.frames, x.flag), stk[1..])
      else
        var e := Emit(locs, d, base);
        if addr in e.locs then
          StepResult(e.ids + [e.locs[addr].id], e.locs, EmptyDeck, Skip(stk, |e.locs[addr].pcs|))
        else
          StepResult(e.ids, e.locs, Added(EmptyDeck, addr, x.frames, x.flag), stk[1..])
  }

  /** A step keeps the walk invariant and every cached entry, and every id it
      returns is cached afterwards. */
  lemma StepKeeps(locs: Locs, d: DeckState, stk: seq<Addr>, base: nat, callers: Addr -> seq<Frame>)
    requires WalkInv(locs, d, base) && stk != []
    ensures var s := Step(locs, d, stk, base, callers);
      WalkInv(s.locs, s.deck, base) && Extends(s.locs, locs)
      && forall i :: 0 <= i < |s.ids| ==> s.ids[i] in IdsOf(s.locs)
  {
    var addr := stk[0];
    EmitKeeps(locs, d, base);
    var e := Emit(locs, d, base);
    if addr in locs && d.pcs != [] && Mergeable(d.frames, locs[addr].firstPCFrames) {
      AddedInv(d, addr, locs[addr].firstPCFrames, locs[addr].firstPCSymbolizeResult);
    } else if addr in locs {
      assert locs[addr] == e.locs[addr];
      assert locs[addr].id in IdsOf(e.locs);
    } else {
      var x := Expand(addr, callers(addr));
      if x.frames == [] {
      } else if Mergeable(d.frames, x.frames) {
        AddedInv(d, addr, x.frames, x.flag);
      } else if addr in e.locs {
        assert e.locs[addr].id in IdsOf(e.locs);
      } else {
        AddedInv(EmptyDeck, addr, x.frames, x.flag);
      }
    }
  }

  datatype Walk = Walk(ids: seq<nat>, locs: Locs)

  /** The whole walk: steps until the stack is used up, then emits what is
      left in the deck. */
  function LocWalk(locs: Locs, d: DeckState, stk: seq<Addr>, base: nat,
                   callers: Addr -> seq<Frame>): Walk
    requires WalkInv(locs, d, base)
    decreases |stk|
  {
    if stk == [] then
      var e := Emit(locs, d, base);
      Walk(e.ids, e.locs)
    else
      var s := Step(locs, d, stk, base, callers);
      StepKeeps(locs, d, stk, base, callers);
      var w := LocWalk(s.locs, s.deck, s.stk, base, callers);
      Walk(s.ids + w.ids, w.locs)
  }

  /** One unfolding of the walk: its first step, then the walk from there. */
  lemma WalkUnfold(locs: Locs, d: DeckState, stk: seq<Addr>, base: nat, callers: Addr -> seq<Frame>)
    requires WalkInv(locs, d, base) && stk != []
    ensures var s := Step(locs, d, stk, base, callers);
      WalkInv(s.locs, s.deck, base)
      && LocWalk(locs, d, stk, base, callers) ==
         Walk(s.ids + LocWalk(s.locs, s.deck, s.stk, base, callers).ids,
              LocWalk(s.locs, s.deck, s.stk, base, callers).locs)
  {
    StepKeeps(locs, d, stk, base, callers);
  }

  /** The ids in use lie in base .. base + |locs| - 1. */
  lemma IdsBelow(locs: Locs, base: nat)
    requires LocsValid(locs, base)
    ensures forall x :: x in IdsOf(locs) ==> base <= x < base + |locs|
  {
    forall x | x in IdsOf(locs) ensures base <= x < base + |locs| {
      var a :| a in locs && locs[a].id == x;
    }
  }

  /** A walk keeps the cache valid and every entry it had, and each id it
      returns is at least base and is the id of a cached location. */
  lemma {:induction false} WalkKeeps(locs: Locs, d: DeckState, stk: seq<Addr>, base: nat,
                                     callers: Addr -> seq<Frame>)
    requires WalkInv(locs, d, base)
    ensures var w := LocWalk(locs, d, stk, base, callers);
      LocsValid(w.locs, base) && Extends(w.locs, locs)
      && forall i :: 0 <= i < |w.ids| ==> w.ids[i] in IdsOf(w.locs) && w.ids[i] >= base
    decreases |stk|
  {
    var w := LocWalk(locs, d, stk, base, callers);
    if stk == [] {
      EmitKeeps(locs, d, base);
    } else {
      var s := Step(locs, d, stk, base, callers);
      StepKeeps(locs, d, stk, base, callers);
      WalkKeeps(s.locs, s.deck, s.stk, base, callers);
      var w2 := LocWalk(s.locs, s.deck, s.stk, base, callers);
      forall i | 0 <= i < |w.ids| ensures w.ids[i] in IdsOf(w.locs) && w.ids[i] >= base {
        if i < |s.ids| {
          var a :| a in s.locs && s.locs[a].id == w.ids[i];
          assert w.locs[a] == s.locs[a];
        } else {
          assert w.ids[i] == w2.ids[i - |s.ids|];
        }
      }
    }
  }
  /** The deck as a list of emitted decks: none when it is empty. */
  function DeckList(d: DeckState): seq<DeckState>
  {
    if d.pcs == [] then [] else [d]
  }

  /** The decks one step emits: the current deck, when it is not empty and
      the step does not merge stk[0] into it. */
  function StepDecks(locs: Locs, d: DeckState, stk: seq<Addr>, base: nat,
                     callers: Addr -> seq<Frame>): (ds: seq<DeckState>)
    requires WalkInv(locs, d, base) && stk != []
    ensures ds == [] || ds == DeckList(d)
  {
    var addr := stk[0];
    if addr in locs then
      if d.pcs != [] && Mergeable(d.frames, locs[addr].firstPCFrames) then [] else DeckList(d)
    else
      var x := Expand(addr, callers(addr));
      if x.frames != [] && Mergeable(d.frames, x.frames) then [] else DeckList(d)
  }

  /** The decks a walk emits, in order: those of each step, then what is
      left in the deck at the end. */
  function WalkDecks(locs: Locs, d: DeckState, stk: seq<Addr>, base: nat,
                     callers: Addr -> seq<Frame>): seq<DeckState>
    requires WalkInv(locs, d, base)
    decreases |stk|
  {
    if stk == [] then DeckList(d)
    else
      var s := Step(locs, d, stk, base, callers);
      StepKeeps(locs, d, stk, base, callers);
      StepDecks(locs, d, stk, base, callers) + WalkDecks(s.locs, s.deck, s.stk, base, callers)
  }

  /** A step caches exactly the decks it emits: each under its first PC,
      with the next id, and nothing else changes in the cache. */
  lemma StepCaches(locs: Locs, d: DeckState, stk: seq<Addr>, base: nat, callers: Addr -> seq<Frame>)
    requires WalkInv(locs, d, base) && stk != []
    ensures var s, ds := Step(locs, d, stk, base, callers), StepDecks(locs, d, stk, base, callers);
      s.locs == (if ds == [] then locs else Emit(locs, d, base).locs)
      && |s.locs| == |locs| + |ds|
  {
    EmitCount(locs, d, base);
    var addr := stk[0];
    if addr !in locs {
      var x := Expand(addr, callers(addr));
      if x.frames == [] || !Mergeable(d.frames, x.frames) {
        var e := Emit(locs, d, base);
        assert StepDecks(locs, d, stk, base, callers) == DeckList(d);
        assert Step(locs, d, stk, base, callers).locs == e.locs;
      }
    }
  }

  /** Emitting adds one cache entry for a non-empty deck and none for an
      empty one. */
  lemma EmitCount(locs: Locs, d: DeckState, base: nat)
    requires WalkInv(locs, d, base)
    ensures |Emit(locs, d, base).locs| == |locs| + |DeckList(d)|
  {
    if d.pcs != [] {
      AddFresh(locs, d.pcs[0], NewEntry(d, |locs| + base), base);
    }
  }

  /** A walk adds one cache entry per deck it emits. */
  lemma {:induction false} WalkCount(locs: Locs, d: DeckState, stk: seq<Addr>, base: nat,
                                     callers: Addr -> seq<Frame>)
    requires WalkInv(locs, d, base)
    ensures |LocWalk(locs, d, stk, base, callers).locs| == |locs| + |WalkDecks(locs, d, stk, base, callers)|
    decreases |stk|
  {
    if stk == [] {
      if d.pcs != [] {
        AddFresh(locs, d.pcs[0], NewEntry(d, |locs| + base), base);
      }
    } else {
      var s := Step(locs, d, stk, base, callers);
      StepKeeps(locs, d, stk, base, callers);
      StepCaches(locs, d, stk, base, callers);
      WalkCount(s.locs, s.deck, s.stk, base, callers);
    }
  }

  /** The decks ds are non-empty and cached, the i-th under its first PC
      with id first + i. */
  ghost predicate CachedAt(locs: Locs, ds: seq<DeckState>, first: nat)
  {
    forall i :: 0 <= i < |ds| ==>
      DeckInv(ds[i]) && ds[i].pcs != [] && ds[i].pcs[0] in locs && locs[ds[i].pcs[0]] == NewEntry(ds[i], first + i)
  }

  lemma CachedAtConcat(locs: Locs, a: seq<DeckState>, b: seq<DeckState>, first: nat)
    requires CachedAt(locs, a, first) && CachedAt(locs, b, first + |a|)
    ensures CachedAt(locs, a + b, first)
  {
    forall i | 0 <= i < |a + b|
      ensures DeckInv((a + b)[i]) && (a + b)[i].pcs != [] && (a + b)[i].pcs[0] in locs
      ensures locs[(a + b)[i].pcs[0]] == NewEntry((a + b)[i], first + i)
    {
      if i >= |a| {
        assert (a + b)[i] == b[i - |a|];
      }
    }
  }

  /** The deck a step emits is cached under its first PC with the next id. */
  lemma StepCachedAt(locs: Locs, d: DeckState, stk: seq<Addr>, base: nat, callers: Addr -> seq<Frame>)
    requires WalkInv(locs, d, base) && stk != []
    ensures CachedAt(Step(locs, d, stk, base, callers).locs, StepDecks(locs, d, stk, base, callers), |locs| + base)
  {
    var sl, sd := Step(locs, d, stk, base, callers).locs, StepDecks(locs, d, stk, base, callers);
    if sd != [] {
      assert sd == [d] && d.pcs != [] && sl == Emit(locs, d, base).locs by {
        StepCaches(locs, d, stk, base, callers);
      }
      assert sl[d.pcs[0]] == NewEntry(d, |locs| + base);
    }
  }

  /** A walk caches each deck it emits, the i-th under its first PC with id
      |locs| + base + i, and every deck it emits is a non-empty one. */
  lemma {:induction false} WalkCaches(locs: Locs, d: DeckState, stk: seq<Addr>, base: nat,
                                      callers: Addr -> seq<Frame>)
    requires WalkInv(locs, d, base)
    ensures CachedAt(LocWalk(locs, d, stk, base, callers).locs, WalkDecks(locs, d, stk, base, callers), |locs| + base)
    decreases |stk|
  {
    if stk != [] {
      var s := Step(locs, d, stk, base, callers);
      StepKeeps(locs, d, stk, base, callers);
      var w := LocWalk(s.locs, s.deck, s.stk, base, callers);
      var sd := StepDecks(locs, d, stk, base, callers);
      var rest := WalkDecks(s.locs, s.deck, s.stk, base, callers);
      assert LocWalk(locs, d, stk, base, callers).locs == w.locs && WalkDecks(locs, d, stk, base, callers) == sd + rest by {
        WalkUnfold(locs, d, stk, base, callers);
      }
      StepCachedAt(locs, d, stk, base, callers);
      assert CachedAt(w.locs, sd, |locs| + base) by {
        WalkKeeps(s.locs, s.deck, s.stk, base, callers);
      }
      WalkCaches(s.locs, s.deck, s.stk, base, callers);
      assert |s.locs| + base == |locs| + base + |sd| by {
        StepCaches(locs, d, stk, base, callers);
      }
      CachedAtConcat(w.locs, sd, rest, |locs| + base);
    }
  }

  /** locs1 is locs0 with every id one higher: the pprof builder's cache
      next to the OTLP builder's after the same stacks. */
  ghost predicate Shifted(locs1: Locs, locs0: Locs)
  {
    locs1.Keys == locs0.Keys
    && forall a :: a in locs0 ==> locs1[a] == locs0[a].(id := locs0[a].id + 1)
  }

  /** Every id one higher. */
  function Inc(ids: seq<nat>): (r: seq<nat>)
    ensures |r| == |ids| && forall i :: 0 <= i < |ids| ==> r[i] == ids[i] + 1
  {
    seq(|ids|, i requires 0 <= i < |ids| => ids[i] + 1)
  }

  lemma IncConcat(a: seq<nat>, b: seq<nat>)
    ensures Inc(a + b) == Inc(a) + Inc(b)
  {
    assert forall i :: 0 <= i < |a + b| ==> Inc(a + b)[i] == (Inc(a) + Inc(b))[i];
  }

  /** Emitting the same deck from shifted caches with bases 1 and 0. */
  lemma EmitShift(locs1: Locs, locs0: Locs, d: DeckState)
    requires DeckInv(d) && Shifted(locs1, locs0)
    ensures var e1, e0 := Emit(locs1, d, 1), Emit(locs0, d, 0);
      e1.ids == Inc(e0.ids) && Shifted(e1.locs, e0.locs)
  {
    assert |locs1| == |locs1.Keys| == |locs0.Keys| == |locs0|;
  }

  /** One step from shifted caches with bases 1 and 0: the same deck and
      the same rest of the stack, ids one higher, caches still shifted. */
  lemma StepShift(locs1: Locs, locs0: Locs, d: DeckState, stk: seq<Addr>, callers: Addr -> seq<Frame>)
    requires WalkInv(locs1, d, 1) && WalkInv(locs0, d, 0) && Shifted(locs1, locs0) && stk != []
    ensures var s1, s0 := Step(locs1, d, stk, 1, callers), Step(locs0, d, stk, 0, callers);
      s1.ids == Inc(s0.ids) && Shifted(s1.locs, s0.locs) && s1.deck == s0.deck && s1.stk == s0.stk
  {
    if stk[0] in locs0 {
      StepShiftCached(locs1, locs0, d, stk, callers);
    } else {
      StepShiftUncached(locs1, locs0, d, stk, callers);
    }
  }

  lemma StepShiftCached(locs1: Locs, locs0: Locs, d: DeckState, stk: seq<Addr>, callers: Addr -> seq<Frame>)
    requires WalkInv(locs1, d, 1) && WalkInv(locs0, d, 0) && Shifted(locs1, locs0) && stk != []
    requires stk[0] in locs0
    ensures var s1, s0 := Step(locs1, d, stk, 1, callers), Step(locs0, d, stk, 0, callers);
      s1.ids == Inc(s0.ids) && Shifted(s1.locs, s0.locs) && s1.deck == s0.deck && s1.stk == s0.stk
  {
    EmitShift(locs1, locs0, d);
    var addr := stk[0];
    var e1, e0 := Emit(locs1, d, 1), Emit(locs0, d, 0);
    assert locs1[addr].firstPCFrames == locs0[addr].firstPCFrames;
    IncConcat(e0.ids, [locs0[addr].id]);
  }

  lemma StepShiftUncached(locs1: Locs, locs0: Locs, d: DeckState, stk: seq<Addr>, callers: Addr -> seq<Frame>)
    requires WalkInv(locs1, d, 1) && WalkInv(locs0, d, 0) && Shifted(locs1, locs0) && stk != []
    requires stk[0] !in locs0
    ensures var s1, s0 := Step(locs1, d, stk, 1, callers), Step(locs0, d, stk, 0, callers);
      s1.ids == Inc(s0.ids) && Shifted(s1.locs, s0.locs) && s1.deck == s0.deck && s1.stk == s0.stk
  {
    EmitShift(locs1, locs0, d);
    var addr := stk[0];
    var e1, e0 := Emit(locs1, d, 1), Emit(locs0, d, 0);
    if addr in e0.locs {
      IncConcat(e0.ids, [e0.locs[addr].id]);
    }
  }

  /** The pprof walk (ids from 1) and the OTLP walk (ids from 0) over the
      same stack from shifted caches return the same locations, every pprof
      id one higher than the OTLP id, and leave shifted caches. */
  lemma {:induction false} WalkShift(locs1: Locs, locs0: Locs, d: DeckState, stk: seq<Addr>,
                                     callers: Addr -> seq<Frame>)
    requires WalkInv(locs1, d, 1) && WalkInv(locs0, d, 0) && Shifted(locs1, locs0)
    ensures var w1, w0 := LocWalk(locs1, d, stk, 1, callers), LocWalk(locs0, d, stk, 0, callers);
      w1.ids == Inc(w0.ids) && Shifted(w1.locs, w0.locs)
    decreases |stk|
  {
    if stk == [] {
      EmitShift(locs1, locs0, d);
    } else {
      StepShift(locs1, locs0, d, stk, callers);
      StepKeeps(locs1, d, stk, 1, callers);
      StepKeeps(locs0, d, stk, 0, callers);
      var s1, s0 := Step(locs1, d, stk, 1, callers), Step(locs0, d, stk, 0, callers);
      WalkShift(s1.locs, s0.locs, s0.deck, s0.stk, callers);
      var r1, r0 := LocWalk(s1.locs, s1.deck, s1.stk, 1, callers), LocWalk(s0.locs, s0.deck, s0.stk, 0, callers);
      IncConcat(s0.ids, r0.ids);
    }
  }
}
