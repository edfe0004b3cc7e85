/** pcDeck (proto.go): the inline-frame deck that collects the PCs of one
    stack walk that belong to one physical location, leaf first, until a PC
    whose frame cannot have been inlined into the previous one arrives. */
module Deck {
  import opened Mapping
  import opened Runtime

  /** The five fields of a pcDeck. */
  datatype DeckState = DeckState(pcs: seq<Addr>, frames: seq<Frame>, symbolizeResult: SymbolizeFlag,
                                 firstPCFrames: nat, firstPCSymbolizeResult: SymbolizeFlag)

  const EmptyDeck := DeckState([], [], 0, 0, 0)

  /** tryAdd's test: an empty deck takes anything; otherwise the new PC's
      first frame must be an inlined call within the function of the deck's
      last frame (Func nil, equal non-zero entries, a different symbol name). */
  predicate Mergeable(frames: seq<Frame>, newFrames: seq<Frame>)
    requires frames != [] ==> newFrames != []
  {
    frames == [] ||
    var last := frames[|frames| - 1];
    var nf := newFrames[0];
    last.funcNil && last.entry != 0 && nf.entry != 0 && last.entry == nf.entry
    && last.symbolName != nf.symbolName
  }

  /** The deck after a successful tryAdd. */
  function Added(d: DeckState, pc: Addr, frames: seq<Frame>, sr: SymbolizeFlag): DeckState
  {
    var pcs := d.pcs + [pc];
    var fs := d.frames + frames;
    DeckState(pcs, fs, d.symbolizeResult | sr,
              if |pcs| == 1 then |fs| else d.firstPCFrames,
              if |pcs| == 1 then sr else d.firstPCSymbolizeResult)
  }

  /** A deck that every caller keeps: empty and zeroed, or holding at least
      one PC whose (non-empty) frame expansion is at the front. */
  predicate DeckInv(d: DeckState)
  {
    (d.pcs == [] ==> d == EmptyDeck)
    && (d.pcs != [] ==> 0 < d.firstPCFrames <= |d.frames|)
  }

  /** One PC with its expansion and symbolization flag, as offered to tryAdd. */
  datatype Offer = Offer(pc: Addr, frames: seq<Frame>, flag: SymbolizeFlag)

  /** The deck that accepts the offers one after another from an empty deck. */
  function Fill(offers: seq<Offer>): DeckState
  {
    if offers == [] then EmptyDeck
    else
      var o := offers[|offers| - 1];
      Added(Fill(offers[..|offers| - 1]), o.pc, o.frames, o.flag)
  }

  function Pcs(offers: seq<Offer>): seq<Addr>
  {
    if offers == [] then [] else Pcs(offers[..|offers| - 1]) + [offers[|offers| - 1].pc]
  }

  function AllFramesOf(offers: seq<Offer>): seq<Frame>
  {
    if offers == [] then [] else AllFramesOf(offers[..|offers| - 1]) + offers[|offers| - 1].frames
  }

  function Flags(offers: seq<Offer>): SymbolizeFlag
  {
    if offers == [] then 0 else Flags(offers[..|offers| - 1]) | offers[|offers| - 1].flag
  }

  /** A deck filled from offers holds their PCs in order, the concatenation of
      their frames and the OR of their flags, and remembers the frame count
      and flag of the first offer. */
  lemma {:induction false} FillContents(offers: seq<Offer>)
    ensures Fill(offers).pcs == Pcs(offers)
    ensures Fill(offers).frames == AllFramesOf(offers)
    ensures Fill(offers).symbolizeResult == Flags(offers)
    ensures offers != [] ==>
      Fill(offers).firstPCFrames == |offers[0].frames| && Fill(offers).firstPCSymbolizeResult == offers[0].flag
    ensures |Fill(offers).pcs| == |offers|
  {
    if offers != [] {
      var init := offers[..|offers| - 1];
      FillContents(init);
      if init == [] {
        assert offers[0] == offers[|offers| - 1];
      } else {
        assert init[0] == offers[0];
      }
    }
  }

  /** Filling keeps the first offer's frames at the front of the deck, so
      frames[..firstPCFrames] is the expansion of the first PC. */
  lemma {:induction false} FillFirstFrames(offers: seq<Offer>)
    requires offers != []
    ensures Fill(offers).firstPCFrames <= |Fill(offers).frames|
    ensures Fill(offers).frames[..Fill(offers).firstPCFrames] == offers[0].frames
  {
    var init := offers[..|offers| - 1];
    if init != [] {
      FillFirstFrames(init);
      FillContents(init);
      assert init[0] == offers[0];
    } else {
      assert offers[0] == offers[|offers| - 1];
    }
  }

  /** Adding a non-empty expansion keeps the deck invariant. */
  lemma AddedInv(d: DeckState, pc: Addr, frames: seq<Frame>, sr: SymbolizeFlag)
    requires DeckInv(d) && frames != []
    ensures DeckInv(Added(d, pc, frames, sr))
    ensures Added(d, pc, frames, sr).pcs[0] == (if d.pcs == [] then pc else d.pcs[0])
  {
  }

  class PCDeck {
    var pcs: seq<Addr>
    var frames: seq<Frame>
    var symbolizeResult: SymbolizeFlag
    var firstPCFrames: nat
    var firstPCSymbolizeResult: SymbolizeFlag

    function State(): DeckState
      reads this
    {
      DeckState(pcs, frames, symbolizeResult, firstPCFrames, firstPCSymbolizeResult)
    }

    /** The zero pcDeck embedded in a new builder. */
    constructor ()
      ensures State() == EmptyDeck
    {
      pcs, frames, symbolizeResult, firstPCFrames, firstPCSymbolizeResult := [], [], 0, 0, 0;
    }

    /** reset: empties both lists and zeroes the three counters. */
    method Reset()
      modifies this
      ensures State() == EmptyDeck
    {
      pcs := pcs[..0];
      frames := frames[..0];
      symbolizeResult := 0;
      firstPCFrames := 0;
      firstPCSymbolizeResult := 0;
    }

    /** tryAdd: on an empty deck, or when the merge test passes, appends the
        PC and its frames, ORs in the flag and, for the first PC, records its
        frame count and flag; otherwise rejects and changes nothing. The
        caller must supply frames when the deck is not empty (frames[0] is
        read). */
    method TryAdd(pc: Addr, newFrames: seq<Frame>, sr: SymbolizeFlag) returns (success: bool)
      requires frames != [] ==> newFrames != []
      modifies this
      ensures success == Mergeable(old(frames), newFrames)
      ensures State() == if success then Added(old(State()), pc, newFrames, sr) else old(State())
    {
      var existing := |frames|;
      if existing > 0 {
        var newFrame := newFrames[0];
        var last := frames[existing - 1];
        if !last.funcNil {
          return false;
        }
        if last.entry == 0 || newFrame.entry == 0 {
          return false;
        }
        if last.entry != newFrame.entry {
          return false;
        }
        if last.symbolName == newFrame.symbolName {
          return false;
        }
      }
      pcs := pcs + [pc];
      frames := frames + newFrames;
      symbolizeResult := symbolizeResult | sr;
      if |pcs| == 1 {
        firstPCFrames := |frames|;
        firstPCSymbolizeResult := sr;
      }
      return true;
    }
  }
}
