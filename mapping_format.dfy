/** The text /proc/self/maps consists of (proc(5)): hex numbers, fields
    separated by spaces, lines separated by newlines. Each formatting
    function here is the partner of a parser in the Mapping module, and the
    lemmas say that parsing what was formatted gives back what went in. */
module MappingFormat {
  import opened GoStrings
  import opened Mapping

  // ------------------------------------------------------------- hex numbers

  /** HexDigits accepts exactly the strings made of hex digits. */
  lemma {:induction false} HexDigitsAllHex(s: string, n: nat)
    requires n <= |s|
    ensures HexDigits(s, n).Some? <==> forall i :: 0 <= i < n ==> HexDigitValue(s[i]) >= 0
  {
    if n > 0 {
      HexDigitsAllHex(s, n - 1);
    }
  }

  /** HexDigits reads only the first n characters. */
  lemma {:induction false} HexDigitsPrefix(s: string, t: string, n: nat)
    requires n <= |s|
    ensures HexDigits(s + t, n) == HexDigits(s, n)
  {
    if n > 0 {
      HexDigitsPrefix(s, t, n - 1);
      assert (s + t)[n - 1] == s[n - 1];
    }
  }

  function HexDigitChar(d: nat): (c: char)
    requires d < 16
    ensures HexDigitValue(c) == d
  {
    if d < 10 then ('0' as int + d) as char else ('a' as int + d - 10) as char
  }

  /** The lower-case hex digits of n, without leading zeros. */
  function FormatHex(n: nat): (s: string)
    ensures s != []
    ensures forall i :: 0 <= i < |s| ==> HexDigitValue(s[i]) >= 0
    ensures Space !in s && Newline !in s && '-' !in s
  {
    if n < 16 then [HexDigitChar(n)] else FormatHex(n / 16) + [HexDigitChar(n % 16)]
  }

  lemma {:induction false} HexDigitsFormatHex(n: nat)
    ensures HexDigits(FormatHex(n), |FormatHex(n)|) == Some(n)
  {
    if n >= 16 {
      var s := FormatHex(n / 16);
      HexDigitsFormatHex(n / 16);
      HexDigitsPrefix(s, [HexDigitChar(n % 16)], |s|);
      assert FormatHex(n)[|s|] == HexDigitChar(n % 16);
    }
  }

  /** strconv.ParseUint(s, 16, 64) gives back every number below 2^64 and
      rejects every larger one. */
  lemma ParseHexFormatHex(n: nat)
    ensures n < Two64 ==> ParseHexUint64(FormatHex(n)) == Some(n)
    ensures n >= Two64 ==> ParseHexUint64(FormatHex(n)) == None
  {
    HexDigitsFormatHex(n);
  }

  // ------------------------------------------------------------- fields

  predicate AllSpaces(pad: string)
  {
    forall i :: 0 <= i < |pad| ==> pad[i] == Space
  }

  /** Cutting a + [sep] + b where a does not contain sep gives back a and b. */
  lemma {:induction false} CutAt(a: string, b: string, sep: char)
    requires sep !in a
    ensures Cut(a + [sep] + b, sep) == CutResult(a, b, true)
  {
    if a != [] {
      CutAt(a[1..], b, sep);
      assert (a + [sep] + b)[1..] == a[1..] + [sep] + b;
    }
  }

  /** A string without sep is not cut. */
  lemma {:induction false} CutNone(a: string, sep: char)
    requires sep !in a
    ensures Cut(a, sep) == CutResult(a, [], false)
  {
    CutFirst(a, sep);
  }

  lemma {:induction false} SpacesFromPad(pad: string, rest: string, k: nat)
    requires AllSpaces(pad) && k <= |pad|
    requires rest == [] || rest[0] != Space
    ensures SpacesFrom(pad + rest, k) == |pad|
    decreases |pad| - k
  {
    if k < |pad| {
      SpacesFromPad(pad, rest, k + 1);
    }
  }

  /** TrimLeft removes exactly the padding. */
  lemma TrimLeftPad(pad: string, rest: string)
    requires AllSpaces(pad)
    requires rest == [] || rest[0] != Space
    ensures TrimLeftSpaces(pad + rest) == rest
  {
    SpacesFromPad(pad, rest, 0);
  }

  /** next on a field, one space, padding and the rest of the line gives the
      field and the rest of the line. */
  lemma NextOfField(f: string, pad: string, rest: string)
    requires Space !in f && AllSpaces(pad)
    requires rest == [] || rest[0] != Space
    ensures Next(f + [Space] + (pad + rest)) == Field(f, rest)
  {
    CutAt(f, pad + rest, Space);
    TrimLeftPad(pad, rest);
  }

  // ------------------------------------------------------------- lines

  /** One line of /proc/self/maps: the address range, permissions, offset,
      device, inode, padding and file name. */
  function FormatLine(lo: nat, hi: nat, perm: string, offset: nat, dev: string, inode: string,
                      pad: string, file: string): string
  {
    (FormatHex(lo) + ['-'] + FormatHex(hi)) + [Space] + (perm + [Space] + (FormatHex(offset) + [Space]
      + (dev + [Space] + (inode + [Space] + (pad + file)))))
  }

  /** The entry a formatted line yields: the executable mapping, with the
      file name stripped of a " (deleted)" marker, unless the inode is "0"
      and the name is then empty. */
  function Expected(lo: nat, hi: nat, offset: nat, inode: string, file: string,
                    buildID: string -> string): Option<Entry>
  {
    var f := TrimDeleted(file);
    if inode == "0" && f == "" then None else Some(Entry(lo, hi, offset, f, buildID(f)))
  }

  /** Parsing a well-formed executable line gives back its numbers and file
      name: the round trip of ParseLine. */
  lemma ParseFormatLine(lo: nat, hi: nat, perm: string, offset: nat, dev: string, inode: string,
                        pad: string, file: string, buildID: string -> string)
    requires lo < Two64 && hi < Two64 && offset < Two64
    requires Executable(perm) && Space !in perm
    requires dev != [] && Space !in dev && inode != [] && Space !in inode
    requires AllSpaces(pad) && file != [] && file[0] != Space
    ensures ParseLine(FormatLine(lo, hi, perm, offset, dev, inode, pad, file), buildID)
         == Expected(lo, hi, offset, inode, file, buildID)
  {
    var l3 := dev + [Space] + (inode + [Space] + (pad + file));
    var l1 := perm + [Space] + (FormatHex(offset) + [Space] + l3);
    var addr := FormatHex(lo) + ['-'] + FormatHex(hi);
    NextOfField(addr, [], l1);
    assert [] + l1 == l1;
    CutAt(FormatHex(lo), FormatHex(hi), '-');
    ParseHexFormatHex(lo);
    ParseHexFormatHex(hi);
    ParsePermFormatted(lo, hi, perm, offset, l3, buildID);
    ParseFileFormatted(lo, hi, offset, dev, inode, pad, file, buildID);
  }

  /** The permission and offset fields of a well-formed line. */
  lemma ParsePermFormatted(lo: nat, hi: nat, perm: string, offset: nat, l3: string, buildID: string -> string)
    requires offset < Two64 && Executable(perm) && Space !in perm
    requires l3 != [] && l3[0] != Space
    ensures ParsePerm(lo, hi, perm + [Space] + (FormatHex(offset) + [Space] + l3), buildID)
         == ParseFile(lo, hi, offset, l3, buildID)
  {
    var l2 := FormatHex(offset) + [Space] + l3;
    NextOfField(perm, [], l2);
    assert [] + l2 == l2;
    NextOfField(FormatHex(offset), [], l3);
    assert [] + l3 == l3;
    ParseHexFormatHex(offset);
  }

  /** The device, inode and file fields of a well-formed line. */
  lemma ParseFileFormatted(lo: nat, hi: nat, offset: nat, dev: string, inode: string, pad: string,
                           file: string, buildID: string -> string)
    requires dev != [] && Space !in dev && inode != [] && Space !in inode
    requires AllSpaces(pad) && file != [] && file[0] != Space
    ensures ParseFile(lo, hi, offset, dev + [Space] + (inode + [Space] + (pad + file)), buildID)
         == Expected(lo, hi, offset, inode, file, buildID)
  {
    var l4 := inode + [Space] + (pad + file);
    NextOfField(dev, [], l4);
    assert [] + l4 == l4;
    NextOfField(inode, pad, file);
    assert inode == "0" <==> |inode| == 1 && inode[0] == '0';
  }

  /** The marker is trimmed once, and a name without it is kept. */
  lemma TrimDeletedMarker(f: string)
    ensures TrimDeleted(f + Deleted) == f
    ensures (|f| < |Deleted| || f[|f| - |Deleted|..] != Deleted) ==> TrimDeleted(f) == f
  {
    assert (f + Deleted)[|f|..] == Deleted;
  }

  /** A line yields an entry only when its address field holds a "-" and its
      permission field allows execution. */
  lemma ParseLineAccepts(line: string, buildID: string -> string)
    ensures ParseLine(line, buildID).Some? ==>
      '-' in Next(line).field && Executable(Next(Next(line).rest).field)
  {
    CutFirst(Next(line).field, '-');
  }

  /** After the offset field, a line is skipped exactly when nothing follows
      the inode field, or the inode is "0" and the file name is empty once a
      " (deleted)" marker is trimmed. */
  lemma ParseFileSkips(lo: nat, hi: nat, offset: nat, line: string, buildID: string -> string)
    ensures var Field(inode, file) := Next(Next(line).rest);
      ParseFile(lo, hi, offset, line, buildID).None? <==> file == [] || (inode == "0" && TrimDeleted(file) == "")
  {
    var Field(inode, file) := Next(Next(line).rest);
    assert inode == "0" <==> |inode| == 1 && inode[0] == '0';
  }

  /** Every accepted line has 64-bit numbers and the build ID of its file. */
  lemma ParseLineBounds(line: string, buildID: string -> string)
    ensures var e := ParseLine(line, buildID);
      e.Some? ==> e.value.lo < Two64 && e.value.hi < Two64 && e.value.offset < Two64
                  && e.value.buildID == buildID(e.value.file)
  {
  }

  /** The calls a list of lines makes, line after line. */
  function Accepted(lines: seq<string>, buildID: string -> string): seq<Entry>
  {
    if lines == [] then [] else Emit(ParseLine(lines[0], buildID)) + Accepted(lines[1..], buildID)
  }

  /** An empty line is skipped. */
  lemma EmptyLine(buildID: string -> string)
    ensures ParseLine("", buildID) == None
  {
    CutNone("", Space);
    CutNone("", '-');
  }

  /** parseProcSelfMaps on lines joined by newlines calls addMapping once for
      each accepted line, in order, whatever the skipped lines are. */
  lemma {:induction false} ParseAllJoin(lines: seq<string>, buildID: string -> string)
    requires forall i :: 0 <= i < |lines| ==> Newline !in lines[i]
    ensures ParseAll(Join(lines, Newline), buildID) == Accepted(lines, buildID)
  {
    if |lines| == 1 {
      if lines[0] == [] {
        EmptyLine(buildID);
      } else {
        CutNone(lines[0], Newline);
      }
      assert Accepted(lines[1..], buildID) == [];
    } else if |lines| > 1 {
      ParseAllJoin(lines[1..], buildID);
      CutAt(lines[0], Join(lines[1..], Newline), Newline);
    }
  }
}
