/** godeltaprof/internal/pprof/mapping.go: the memory mappings of the
    process, read from the text of /proc/self/maps (proc(5)). */
module Mapping {

  /** SymbolizeFlag: bit 0 (LookupTried) says a symbol lookup was done, bit 1
      (LookupFailed) that it failed. */
  type SymbolizeFlag = bv8

  const LookupTried: SymbolizeFlag := 1
  const LookupFailed: SymbolizeFlag := 2

  /** A MemMap entry. Addresses and the offset are unbounded naturals; the
      parser only produces values below 2^64. */
  datatype MemMap = MemMap(start: nat, end: nat, offset: nat, file: string, buildID: string,
                           funcs: SymbolizeFlag, fake: bool)

  // ------------------------------------------------------------- Cut

  /** The result of bytesCut / stringsCut. */
  datatype CutResult = CutResult(before: string, after: string, found: bool)

  /** bytesCut and stringsCut, which are the same function on bytes and on
      strings; every call site cuts at a one-byte separator (newline, space,
      "-"). When sep is found, before ++ [sep] ++ after == s; otherwise the
      result is (s, empty, false). */
  function Cut(s: string, sep: char): (r: CutResult)
    ensures r.found ==> r.before + [sep] + r.after == s
    ensures !r.found ==> r == CutResult(s, [], false)
    ensures |s| > 0 ==> |r.after| < |s|
  {
    if s == [] then CutResult([], [], false)
    else if s[0] == sep then CutResult([], s[1..], true)
    else
      var c := Cut(s[1..], sep);
      CutResult([s[0]] + c.before, c.after, c.found)
  }

  /** Cut splits at the FIRST occurrence: before never contains sep, and sep
      is not found exactly when it does not occur in s. */
  lemma {:induction false} CutFirst(s: string, sep: char)
    ensures Cut(s, sep).found ==> sep !in Cut(s, sep).before
    ensures !Cut(s, sep).found <==> sep !in s
  {
    if s != [] && s[0] != sep {
      CutFirst(s[1..], sep);
      assert s == [s[0]] + s[1..];
    }
  }

  // ------------------------------------------------------------- strconv

  function HexDigitValue(c: char): (v: int)
    ensures -1 <= v < 16
  {
    if '0' <= c <= '9' then c as int - '0' as int
    else if 'a' <= c <= 'f' then c as int - 'a' as int + 10
    else if 'A' <= c <= 'F' then c as int - 'A' as int + 10
    else -1
  }

  /** The number the hex digits s[..n] denote, or None if one of them is not
      a hex digit. */
  function HexDigits(s: string, n: nat): (r: Option<nat>)
    requires n <= |s|
    ensures n == 0 ==> r == Some(0)
  {
    if n == 0 then Some(0)
    else
      var p := HexDigits(s, n - 1);
      var d := HexDigitValue(s[n - 1]);
      if p.None? || d < 0 then None else Some(p.value * 16 + d)
  }

  const Two64: nat := 0x1_0000_0000_0000_0000

  /** strconv.ParseUint(s, 16, 64): a non-empty string of hex digits (no sign,
      no 0x prefix, no underscores) whose value fits in 64 bits. */
  function ParseHexUint64(s: string): (r: Option<nat>)
    ensures r.Some? ==> s != [] && r == HexDigits(s, |s|) && r.value < Two64
  {
    if s == [] then None
    else
      var v := HexDigits(s, |s|);
      if v.Some? && v.value < Two64 then v else None
  }

  datatype Option<T> = None | Some(value: T)

  // ------------------------------------------------------------- fields

  const Space: char := ' '
  const Newline: char := '\n'

  /** bytes.TrimLeft(s, " "): the leading spaces removed; Go returns nil for
      an empty result, so a nil line is exactly an empty one here. */
  function TrimLeftSpaces(s: string): (r: string)
    ensures |r| <= |s| && (r == [] || r[0] != Space)
    ensures r == s[|s| - |r|..]
    ensures forall i :: 0 <= i < |s| - |r| ==> s[i] == Space
  {
    s[SpacesFrom(s, 0)..]
  }

  /** The end of the run of spaces that starts at k. */
  function SpacesFrom(s: string, k: nat): (j: nat)
    requires k <= |s|
    ensures k <= j <= |s| && (j == |s| || s[j] != Space)
    ensures forall i :: k <= i < j ==> s[i] == Space
    decreases |s| - k
  {
    if k < |s| && s[k] == Space then SpacesFrom(s, k + 1) else k
  }

  /** A field cut off the front of a line, and what is left of the line. */
  datatype Field = Field(field: string, rest: string)

  /** The next closure: the field before the first space, and the line with
      that field, the space and any further spaces removed. */
  function Next(line: string): (r: Field)
  {
    var c := Cut(line, Space);
    Field(c.before, TrimLeftSpaces(c.after))
  }

  const Deleted: string := " (deleted)"

  /** The file name without a trailing " (deleted)" marker. */
  function TrimDeleted(file: string): string
  {
    if |file| >= |Deleted| && file[|file| - |Deleted|..] == Deleted then file[..|file| - |Deleted|] else file
  }

  /** The arguments of one addMapping call. */
  datatype Entry = Entry(lo: nat, hi: nat, offset: nat, file: string, buildID: string)

  predicate Executable(perm: string)
  {
    |perm| >= 4 && perm[2] == 'x'
  }

  /** One line of /proc/self/maps: the entry it yields, or None when the line
      is skipped (no "-" in the address field, a bad hex number, a mapping
      that is not executable, nothing after the inode field, or inode "0"
      with an empty file name). elfBuildID is the parameter buildID. */
  function ParseLine(line: string, buildID: string -> string): Option<Entry>
  {
    var Field(addr, rest) := Next(line);
    var c := Cut(addr, '-');
    if !c.found then None
    else
      var lo := ParseHexUint64(c.before);
      var hi := ParseHexUint64(c.after);
      if lo.None? || hi.None? then None
      else ParsePerm(lo.value, hi.value, rest, buildID)
  }

  /** The line after the address field: the permissions must allow execution
      and the offset must be a hex number. */
  function ParsePerm(lo: nat, hi: nat, line: string, buildID: string -> string): Option<Entry>
  {
    var Field(perm, l1) := Next(line);
    if !Executable(perm) then None
    else
      var Field(off, l2) := Next(l1);
      var offset := ParseHexUint64(off);
      if offset.None? then None
      else ParseFile(lo, hi, offset.value, l2, buildID)
  }

  /** The line after the offset field: the device and inode fields are cut
      off, and what remains (without a " (deleted)" marker) is the file. */
  function ParseFile(lo: nat, hi: nat, offset: nat, line: string, buildID: string -> string): Option<Entry>
  {
    var Field(_, l1) := Next(line);
    var Field(inode, l2) := Next(l1);
    if l2 == [] then None
    else
      var file := TrimDeleted(l2);
      if |inode| == 1 && inode[0] == '0' && file == "" then None
      else Some(Entry(lo, hi, offset, file, buildID(file)))
  }

  /** parseProcSelfMaps as a function: the lines of data, each parsed, in
      input order. */
  function ParseAll(data: string, buildID: string -> string): seq<Entry>
    decreases |data|
  {
    if data == [] then []
    else
      var c := Cut(data, Newline);
      Emit(ParseLine(c.before, buildID)) + ParseAll(c.after, buildID)
  }

  /** The addMapping calls one parsed line makes: one, or none when skipped. */
  function Emit(e: Option<Entry>): (r: seq<Entry>)
    ensures |r| <= 1
  {
    if e.Some? then [e.value] else []
  }

  /** The next closure as a step: it cuts the field off the line. */
  method NextField(line: string) returns (f: string, rest: string)
    ensures Field(f, rest) == Next(line)
  {
    var c := Cut(line, Space);
    f := c.before;
    rest := TrimLeftSpaces(c.after);
  }

  /** The body of the parseProcSelfMaps loop for one line: next consumes the
      fields one by one, and each skip is an early exit. The address field
      is handled here, the rest in ParsePermStep and ParseFileStep. */
  method ParseMapsLine(line0: string, buildID: string -> string) returns (e: Option<Entry>)
    ensures e == ParseLine(line0, buildID)
  {
    var addr, line := NextField(line0);
    var c := Cut(addr, '-');
    if !c.found {
      return None;
    }
    var lo := ParseHexUint64(c.before);
    if lo.None? {
      return None;
    }
    var hi := ParseHexUint64(c.after);
    if hi.None? {
      return None;
    }
    e := ParsePermStep(lo.value, hi.value, line, buildID);
  }

  /** The permission and offset fields of the loop body. */
  method ParsePermStep(lo: nat, hi: nat, line0: string, buildID: string -> string) returns (e: Option<Entry>)
    ensures e == ParsePerm(lo, hi, line0, buildID)
  {
    var perm, line := NextField(line0);
    if |perm| < 4 || perm[2] != 'x' {
      return None;
    }
    var off;
    off, line := NextField(line);
    var offset := ParseHexUint64(off);
    if offset.None? {
      return None;
    }
    e := ParseFileStep(lo, hi, offset.value, line, buildID);
  }

  /** The device, inode and file fields of the loop body. */
  method ParseFileStep(lo: nat, hi: nat, offset: nat, line0: string, buildID: string -> string)
    returns (e: Option<Entry>)
    ensures e == ParseFile(lo, hi, offset, line0, buildID)
  {
    var dev, line := NextField(line0);
    var inode;
    inode, line := NextField(line);
    if line == [] {
      return None;
    }
    var file := TrimDeleted(line);
    if |inode| == 1 && inode[0] == '0' && file == "" {
      return None;
    }
    return Some(Entry(lo, hi, offset, file, buildID(file)));
  }

  /** One iteration of the parseProcSelfMaps loop: the line is cut off the
      front of data and parsed. */
  method NextLine(data: string, buildID: string -> string) returns (e: Option<Entry>, rest: string)
    requires |data| > 0
    ensures ParseAll(data, buildID) == Emit(e) + ParseAll(rest, buildID)
    ensures |rest| < |data|
  {
    var cut := Cut(data, Newline);
    e := ParseMapsLine(cut.before, buildID);
    rest := cut.after;
  }

  /** parseProcSelfMaps: the line loop, with one addMapping call (returned in
      order) per accepted line. */
  method ParseProcSelfMaps(input: string, buildID: string -> string) returns (calls: seq<Entry>)
    ensures calls == ParseAll(input, buildID)
  {
    calls := [];
    var data := input;
    while |data| > 0
      invariant calls + ParseAll(data, buildID) == ParseAll(input, buildID)
      decreases |data|
    {
      ghost var c0, d0 := calls, data;
      var e;
      e, data := NextLine(data, buildID);
      calls := calls + Emit(e);
      AppendStep(c0, Emit(e), ParseAll(d0, buildID), ParseAll(data, buildID), ParseAll(input, buildID));
    }
  }

  lemma AppendStep<T>(done: seq<T>, next: seq<T>, rest: seq<T>, tail: seq<T>, all: seq<T>)
    requires done + rest == all && rest == next + tail
    ensures (done + next) + tail == all
  {
  }

  /** ReadMapping: one real entry per accepted line, in order; when there is
      none, a single all-zero entry marked fake. The contents of
      /proc/self/maps are the parameter data (empty when the file cannot be
      read). */
  method ReadMapping(data: string, buildID: string -> string) returns (mem: seq<MemMap>)
    ensures ParseAll(data, buildID) != [] ==> mem == ToMemMaps(ParseAll(data, buildID))
    ensures ParseAll(data, buildID) == [] ==> mem == [FakeMapping]
  {
    var calls := ParseProcSelfMaps(data, buildID);
    mem := ToMemMaps(calls);
    if |mem| == 0 {
      mem := [FakeMapping];
    }
  }

  /** The MemMap entries the addMapping calls append: one per call, in order,
      with the call's addresses, offset, file and build ID, no symbolization
      yet and not fake. */
  function ToMemMaps(calls: seq<Entry>): (mem: seq<MemMap>)
    ensures |mem| == |calls|
    ensures forall i :: 0 <= i < |calls| ==> mem[i] == ToMemMap(calls[i])
  {
    if calls == [] then [] else ToMemMaps(calls[..|calls| - 1]) + [ToMemMap(calls[|calls| - 1])]
  }

  function ToMemMap(e: Entry): (m: MemMap)
    ensures m.start == e.lo && m.end == e.hi && m.offset == e.offset
    ensures m.file == e.file && m.buildID == e.buildID && m.funcs == 0 && !m.fake
  {
    MemMap(e.lo, e.hi, e.offset, e.file, e.buildID, 0, false)
  }

  const FakeMapping: MemMap := MemMap(0, 0, 0, "", "", 0, true)
}
