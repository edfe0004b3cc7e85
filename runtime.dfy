/** Runtime frames as the Go runtime reports them, and allFrames: the expansion
    of one return PC into the frames inlined at it (proto.go). The runtime's
    symbol table is not modelled: the frames CallersFrames yields for the PC
    are a parameter. */
module Runtime {
  import opened Mapping

  /** A program counter; uintptr values are below 2^64. */
  type Addr = nat

  /** runtime.Frame, reduced to what the profile builders read. funcNil is
      "Func == nil"; symbolName and startLine are what the runtime hooks
      runtime_FrameSymbolName and runtime_FrameStartLine return for it. */
  datatype Frame = Frame(funcNil: bool, entry: nat, symbolName: string, funcName: string,
                         file: string, line: int, pc: Addr, startLine: int)

  /** The zero Frame, which an exhausted CallersFrames iterator returns. */
  const ZeroFrame := Frame(true, 0, "", "", "", 0, 0, 0)

  const Goexit := "runtime.goexit"

  /** uintptr subtraction addr - 1, wrapping at zero. */
  function PrevPC(addr: Addr): (r: Addr)
    ensures addr < Two64 ==> r < Two64 && (r + 1) % Two64 == addr
  {
    if addr == 0 then Two64 - 1 else addr - 1
  }

  /** The first frame the iterator yields: the zero frame when there is none. */
  function First(callers: seq<Frame>): Frame
  {
    if callers == [] then ZeroFrame else callers[0]
  }

  /** The frames after the first, up to and including the first goexit frame. */
  function ThroughGoexit(fs: seq<Frame>): (r: seq<Frame>)
    ensures |r| <= |fs|
  {
    if fs == [] then []
    else if fs[0].funcName == Goexit then [fs[0]]
    else [fs[0]] + ThroughGoexit(fs[1..])
  }

  /** The first frame could not be fully symbolized. */
  predicate Unresolved(f: Frame)
  {
    f.pc == 0 || f.funcName == "" || f.file == "" || f.line == 0
  }

  datatype Expansion = Expansion(frames: seq<Frame>, flag: SymbolizeFlag)

  /** allFrames(addr), where callers are the frames CallersFrames([addr]) yields. */
  function Expand(addr: Addr, callers: seq<Frame>): Expansion
  {
    var f := First(callers);
    if f.funcName == Goexit then Expansion([], 0)
    else
      var flag := if Unresolved(f) then LookupTried | LookupFailed else LookupTried;
      var f' := if f.pc == 0 then f.(pc := PrevPC(addr)) else f;
      Expansion([f'] + ThroughGoexit(if callers == [] then [] else callers[1..]), flag)
  }

  /** The iterating implementation of allFrames: the first frame decides the
      flag and, when it has no PC, gets addr - 1; the loop that follows it
      is FollowFrames. */
  method AllFrames(addr: Addr, callers: seq<Frame>) returns (ret: seq<Frame>, flag: SymbolizeFlag)
    ensures Expansion(ret, flag) == Expand(addr, callers)
  {
    var frame := First(callers);
    var more := 1 < |callers|;
    if frame.funcName == Goexit {
      return [], 0;
    }
    flag := LookupTried;
    if frame.pc == 0 || frame.funcName == "" || frame.file == "" || frame.line == 0 {
      flag := flag | LookupFailed;
    }
    if frame.pc == 0 {
      frame := frame.(pc := PrevPC(addr));
    }
    ret := [frame];
    var following := FollowFrames(callers, frame, more);
    ret := ret + following;
  }

  /** The loop of allFrames: while the last frame taken is not goexit and the
      iterator has more, take the next one. frame0 and more0 are the first
      frame and the iterator's "more" after it. */
  method FollowFrames(callers: seq<Frame>, frame0: Frame, more0: bool) returns (ret: seq<Frame>)
    requires more0 == (1 < |callers|)
    requires frame0.funcName == First(callers).funcName != Goexit
    ensures ret == ThroughGoexit(if callers == [] then [] else callers[1..])
  {
    var frame, more := frame0, more0;
    ret := [];
    ghost var all := ThroughGoexit(if callers == [] then [] else callers[1..]);
    ghost var tail := all;
    var i := 0;
    while frame.funcName != Goexit && more
      invariant callers == [] ==> i == 0 && !more && tail == []
      invariant callers != [] ==> i < |callers| && more == (i + 1 < |callers|)
      invariant all == ret + tail
      invariant frame.funcName == Goexit ==> tail == []
      invariant callers != [] && frame.funcName != Goexit ==> tail == ThroughGoexit(callers[i + 1..])
      decreases |callers| - i
    {
      ThroughStep(callers, i + 1);
      ghost var r0, t0 := ret, tail;
      i := i + 1;
      frame := callers[i];
      more := i + 1 < |callers|;
      ret := ret + [frame];
      tail := tail[1..];
      AppendStep(r0, [frame], t0, tail, all);
    }
  }

  /** One unfolding of ThroughGoexit at position k of fs. */
  lemma ThroughStep(fs: seq<Frame>, k: nat)
    requires k < |fs|
    ensures ThroughGoexit(fs[k..]) ==
      [fs[k]] + (if fs[k].funcName == Goexit then [] else ThroughGoexit(fs[k + 1..]))
  {
    assert fs[k..][1..] == fs[k + 1..];
  }

  /** Every frame of ThroughGoexit(fs) but the last is a non-goexit frame, and
      the result is a prefix of fs that is all of fs when fs holds no goexit. */
  lemma {:induction false} ThroughGoexitShape(fs: seq<Frame>)
    ensures ThroughGoexit(fs) == fs[..|ThroughGoexit(fs)|]
    ensures forall j :: 0 <= j < |ThroughGoexit(fs)| - 1 ==> ThroughGoexit(fs)[j].funcName != Goexit
    ensures (forall j :: 0 <= j < |fs| ==> fs[j].funcName != Goexit) ==> ThroughGoexit(fs) == fs
    ensures ThroughGoexit(fs) != [] && ThroughGoexit(fs) != fs ==>
      ThroughGoexit(fs)[|ThroughGoexit(fs)| - 1].funcName == Goexit
  {
    if fs != [] && fs[0].funcName != Goexit {
      ThroughGoexitShape(fs[1..]);
      assert fs == [fs[0]] + fs[1..];
    }
  }

  /** allFrames returns nothing exactly when the first frame is goexit, and
      then its flag is 0; otherwise the flag is LookupTried, with LookupFailed
      set exactly when the first frame is unresolved, and the frames are the
      callers' frames through the first goexit (the first one with a made-up
      PC of addr - 1 when it had none). */
  lemma ExpandShape(addr: Addr, callers: seq<Frame>)
    ensures var e := Expand(addr, callers);
      (e.frames == [] <==> First(callers).funcName == Goexit)
      && (e.flag == 0 <==> e.frames == [])
      && (e.frames != [] ==>
            e.flag & LookupTried == LookupTried
            && (e.flag & LookupFailed == LookupFailed <==> Unresolved(First(callers))))
      && (e.frames != [] ==>
            e.frames[0].funcName == First(callers).funcName
            && e.frames[0].pc == (if First(callers).pc == 0 then PrevPC(addr) else First(callers).pc)
            && (callers == [] ==> |e.frames| == 1)
            && (callers != [] ==> e.frames[1..] == callers[1..|e.frames|]))
  {
    var e := Expand(addr, callers);
    if First(callers).funcName != Goexit {
      if callers != [] {
        ThroughGoexitShape(callers[1..]);
      }
      assert e.flag == 1 || e.flag == 3;
    }
  }
}
