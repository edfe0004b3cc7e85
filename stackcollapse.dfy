/** The test-side stack collapse of godeltaprof/compat: every sample becomes a
    ";"-joined stack string (root first), the list is sorted by that string and
    runs of equal strings are merged by adding their values. */
module StackCollapse {
  import opened GoStrings

  /** A location of a decoded profile, reduced to the function names of its
      lines (innermost first, as pprof lists them). */
  datatype Location = Location(lines: seq<string>)

  /** A decoded profile sample: its locations (leaf first) and its values. */
  datatype Sample = Sample(location: seq<Location>, value: seq<int>)

  /** The stack struct: the function names root first, their joined string
      and the sample's values. */
  datatype Stack = Stack(funcs: seq<string>, line: string, value: seq<int>)

  /** The function names of all lines of all locations, in the order the nested
      loop visits them. */
  function LeafFirst(locs: seq<Location>): (names: seq<string>)
    ensures |locs| == 0 ==> names == []
  {
    if locs == [] then [] else LeafFirst(locs[..|locs| - 1]) + locs[|locs| - 1].lines
  }

  function Reversed(xs: seq<string>): (r: seq<string>)
    ensures |r| == |xs|
    ensures forall i :: 0 <= i < |xs| ==> r[i] == xs[|xs| - 1 - i]
  {
    if xs == [] then [] else Reversed(xs[1..]) + [xs[0]]
  }

  lemma ReversedReversed(xs: seq<string>)
    ensures Reversed(Reversed(xs)) == xs
  {
  }

  /** The stack struct a sample collapses to. */
  function ToStack(s: Sample): Stack
  {
    var funcs := Reversed(LeafFirst(s.location));
    Stack(funcs, Join(funcs, ';'), s.value)
  }

  /** The swap loop of pprofSampleStackToStrings: swaps i and len-i-1 for
      every i below len/2, which reverses the slice in place. */
  method ReverseInPlace(a: array<string>)
    modifies a
    ensures a[..] == Reversed(old(a[..]))
  {
    var n := a.Length;
    for i := 0 to n / 2
      invariant forall k :: 0 <= k < i ==> a[k] == old(a[n - 1 - k]) && a[n - 1 - k] == old(a[k])
      invariant forall k :: i <= k < n - i ==> a[k] == old(a[k])
    {
      var j := n - i - 1;
      a[i], a[j] := a[j], a[i];
    }
  }

  /** pprofSampleStackToStrings: collects the names leaf first, reverses them
      in place and joins them with ";". */
  method SampleStackToStrings(s: Sample) returns (funcs: seq<string>, line: string)
    ensures funcs == Reversed(LeafFirst(s.location))
    ensures line == Join(funcs, ';')
  {
    var collected: seq<string> := [];
    for i := 0 to |s.location|
      invariant collected == LeafFirst(s.location[..i])
    {
      assert s.location[..i + 1][..i] == s.location[..i];
      collected := collected + s.location[i].lines;
    }
    assert s.location[..|s.location|] == s.location;
    var a := new string[|collected|](k requires 0 <= k < |collected| => collected[k]);
    ReverseInPlace(a);
    funcs := a[..];
    line := Join(funcs, ';');
  }

  /** The stack string is the root-to-leaf names joined with ";": leaf-first,
      reversed. When no name contains ";" the string gives back exactly that
      name list. */
  lemma {:induction false} StackStringNames(s: Sample)
    requires LeafFirst(s.location) != []
    requires forall i :: 0 <= i < |LeafFirst(s.location)| ==> ';' !in LeafFirst(s.location)[i]
    ensures Split(ToStack(s).line, ';') == Reversed(LeafFirst(s.location))
  {
    var names := Reversed(LeafFirst(s.location));
    assert forall i :: 0 <= i < |names| ==> ';' !in names[i] by {
      forall i | 0 <= i < |names| ensures ';' !in names[i] {
        assert names[i] == LeafFirst(s.location)[|names| - 1 - i];
      }
    }
    SplitJoin(names, ';');
  }

  // ---------------------------------------------------------------- sorting

  ghost predicate SortedByLine(xs: seq<Stack>)
  {
    forall i, j :: 0 <= i < j < |xs| ==> LessEq(xs[i].line, xs[j].line)
  }

  /** Sorted by line with no line repeated. */
  ghost predicate StrictlySortedByLine(xs: seq<Stack>)
  {
    forall i, j :: 0 <= i < j < |xs| ==> LessEq(xs[i].line, xs[j].line) && xs[i].line != xs[j].line
  }

  function InsertByLine(x: Stack, xs: seq<Stack>): (r: seq<Stack>)
    ensures |r| == |xs| + 1
    ensures multiset(r) == multiset(xs) + multiset{x}
  {
    if xs == [] || LessEq(x.line, xs[0].line) then [x] + xs
    else
      assert xs == [xs[0]] + xs[1..];
      [xs[0]] + InsertByLine(x, xs[1..])
  }

  /** The order sort.Slice establishes, by insertion: the sort itself is
      library code whose order among equal lines is unspecified. */
  function SortByLine(xs: seq<Stack>): (r: seq<Stack>)
    ensures |r| == |xs|
    ensures multiset(r) == multiset(xs)
  {
    if xs == [] then []
    else
      assert xs == [xs[0]] + xs[1..];
      InsertByLine(xs[0], SortByLine(xs[1..]))
  }

  /** Every line of an insertion is at least b when x's and xs's are. */
  lemma {:induction false} InsertByLineBound(x: Stack, xs: seq<Stack>, b: string)
    requires LessEq(b, x.line)
    requires forall i :: 0 <= i < |xs| ==> LessEq(b, xs[i].line)
    ensures forall i :: 0 <= i < |xs| + 1 ==> LessEq(b, InsertByLine(x, xs)[i].line)
  {
    if xs != [] && !LessEq(x.line, xs[0].line) {
      InsertByLineBound(x, xs[1..], b);
      assert InsertByLine(x, xs) == [xs[0]] + InsertByLine(x, xs[1..]);
    }
  }

  lemma {:induction false} InsertByLineSorted(x: Stack, xs: seq<Stack>)
    requires SortedByLine(xs)
    ensures SortedByLine(InsertByLine(x, xs))
  {
    if xs == [] {
    } else if LessEq(x.line, xs[0].line) {
      var r := InsertByLine(x, xs);
      forall b | 1 <= b < |r| ensures LessEq(x.line, r[b].line) {
        if b > 1 { LessEqTransitive(x.line, xs[0].line, xs[b - 1].line); }
      }
    } else {
      var tail := xs[1..];
      assert SortedByLine(tail);
      InsertByLineSorted(x, tail);
      var rt := InsertByLine(x, tail);
      var r := [xs[0]] + rt;
      assert r == InsertByLine(x, xs);
      LessEqTotal(x.line, xs[0].line);
      InsertByLineBound(x, tail, xs[0].line);
      forall a, b | 0 <= a < b < |r| ensures LessEq(r[a].line, r[b].line) {
        if a == 0 {
          assert r[b] == rt[b - 1];
        } else {
          assert r[a] == rt[a - 1] && r[b] == rt[b - 1];
        }
      }
    }
  }

  /** The result of sorting is sorted and a permutation of its input. */
  lemma {:induction false} SortByLineSorted(xs: seq<Stack>)
    ensures SortedByLine(SortByLine(xs))
    ensures multiset(SortByLine(xs)) == multiset(xs)
  {
    if xs != [] {
      SortByLineSorted(xs[1..]);
      InsertByLineSorted(xs[0], SortByLine(xs[1..]));
    }
  }

  // ---------------------------------------------------------------- merging

  /** Element-wise addition of v into u: unique[len-1].value[i] += s.value[i]
      for every index of v. */
  function AddValues(u: seq<int>, v: seq<int>): (r: seq<int>)
    requires |v| <= |u|
    ensures |r| == |u|
    ensures forall i :: 0 <= i < |v| ==> r[i] == u[i] + v[i]
    ensures forall i :: |v| <= i < |u| ==> r[i] == u[i]
  {
    seq(|u|, i requires 0 <= i < |u| => if i < |v| then u[i] + v[i] else u[i])
  }

  ghost predicate Width(xs: seq<Stack>, w: nat)
  {
    forall i :: 0 <= i < |xs| ==> |xs[i].value| == w
  }

  /** One step of the merge loop: a stack whose line equals the last kept
      line is added into it, any other stack is kept. */
  function MergeStep(u: seq<Stack>, s: Stack, w: nat): (r: seq<Stack>)
    requires Width(u, w) && |s.value| == w
    ensures Width(r, w)
    ensures |r| <= |u| + 1
    ensures r != [] && r[|r| - 1].line == s.line
  {
    if u == [] then [s]
    else if u[|u| - 1].line == s.line then
      var last := u[|u| - 1];
      u[..|u| - 1] + [last.(value := AddValues(last.value, s.value))]
    else u + [s]
  }

  /** The merge loop as a left fold of MergeStep. */
  function Merge(xs: seq<Stack>, w: nat): (u: seq<Stack>)
    requires Width(xs, w)
    ensures Width(u, w)
    ensures |u| <= |xs|
    ensures xs != [] ==> u != [] && u[|u| - 1].line == xs[|xs| - 1].line
  {
    if xs == [] then [] else MergeStep(Merge(xs[..|xs| - 1], w), xs[|xs| - 1], w)
  }

  /** The total of column c over a list of stacks. */
  function ColumnTotal(xs: seq<Stack>, c: nat): int
    requires forall i :: 0 <= i < |xs| ==> c < |xs[i].value|
  {
    if xs == [] then 0 else ColumnTotal(xs[..|xs| - 1], c) + xs[|xs| - 1].value[c]
  }

  ghost function Lines(xs: seq<Stack>): set<string>
  {
    set i | 0 <= i < |xs| :: xs[i].line
  }

  /** Merging a sorted list gives a strictly sorted one whose last line is the
      input's last line. */
  lemma {:induction false} MergeStrictlySorted(xs: seq<Stack>, w: nat)
    requires Width(xs, w) && SortedByLine(xs)
    ensures StrictlySortedByLine(Merge(xs, w))
    ensures forall i :: 0 <= i < |Merge(xs, w)| ==> LessEq(Merge(xs, w)[i].line, xs[|xs| - 1].line)
  {
    if xs != [] {
      var init := xs[..|xs| - 1];
      var s := xs[|xs| - 1];
      assert SortedByLine(init);
      MergeStrictlySorted(init, w);
      var u := Merge(init, w);
      LessEqReflexive(s.line);
      assert forall i :: 0 <= i < |u| ==> LessEq(u[i].line, s.line) by {
        if init != [] {
          forall i | 0 <= i < |u| ensures LessEq(u[i].line, s.line) {
            LessEqTransitive(u[i].line, init[|init| - 1].line, s.line);
          }
        }
      }
      if u != [] && u[|u| - 1].line != s.line {
        forall i | 0 <= i < |u| ensures u[i].line != s.line {
          if i < |u| - 1 && u[i].line == s.line {
            LessEqAntisymmetric(u[i].line, u[|u| - 1].line);
          }
        }
      }
      MergeStepSorted(u, s, w);
    }
  }

  /** One merge step on a strictly sorted list whose lines are at most s's,
      and all different from it unless the last one is equal. */
  lemma MergeStepSorted(u: seq<Stack>, s: Stack, w: nat)
    requires Width(u, w) && |s.value| == w && StrictlySortedByLine(u)
    requires forall i :: 0 <= i < |u| ==> LessEq(u[i].line, s.line)
    requires u != [] && u[|u| - 1].line != s.line ==> forall i :: 0 <= i < |u| ==> u[i].line != s.line
    ensures var r := MergeStep(u, s, w);
      StrictlySortedByLine(r) && forall i :: 0 <= i < |r| ==> LessEq(r[i].line, s.line)
  {
    var r := MergeStep(u, s, w);
    LessEqReflexive(s.line);
    if u != [] && u[|u| - 1].line == s.line {
      assert forall i :: 0 <= i < |u| - 1 ==> r[i] == u[i];
    } else {
      assert forall i :: 0 <= i < |u| ==> r[i] == u[i];
    }
  }

  lemma LinesAppend(xs: seq<Stack>, x: Stack)
    ensures Lines(xs + [x]) == Lines(xs) + {x.line}
  {
    var r := xs + [x];
    assert forall i :: 0 <= i < |xs| ==> r[i] == xs[i];
    assert r[|xs|] == x;
  }

  /** Merging keeps exactly the set of lines. */
  lemma {:induction false} MergeLines(xs: seq<Stack>, w: nat)
    requires Width(xs, w)
    ensures Lines(Merge(xs, w)) == Lines(xs)
  {
    if xs != [] {
      var init := xs[..|xs| - 1];
      var s := xs[|xs| - 1];
      MergeLines(init, w);
      assert xs == init + [s];
      LinesAppend(init, s);
      var u := Merge(init, w);
      if u == [] {
        assert Lines([s]) == {s.line} by { LinesAppend([], s); }
      } else if u[|u| - 1].line == s.line {
        var last := u[|u| - 1];
        var front := u[..|u| - 1];
        assert u == front + [last];
        LinesAppend(front, last);
        LinesAppend(front, last.(value := AddValues(last.value, s.value)));
      } else {
        LinesAppend(u, s);
      }
    }
  }

  lemma {:induction false} ColumnTotalAppend(xs: seq<Stack>, ys: seq<Stack>, c: nat)
    requires forall i :: 0 <= i < |xs| ==> c < |xs[i].value|
    requires forall i :: 0 <= i < |ys| ==> c < |ys[i].value|
    ensures ColumnTotal(xs + ys, c) == ColumnTotal(xs, c) + ColumnTotal(ys, c)
  {
    if ys != [] {
      assert (xs + ys)[..|xs + ys| - 1] == xs + ys[..|ys| - 1];
      ColumnTotalAppend(xs, ys[..|ys| - 1], c);
    } else {
      assert xs + ys == xs;
    }
  }

  /** Merging keeps the total of every value column. */
  lemma {:induction false} MergeColumnTotal(xs: seq<Stack>, w: nat, c: nat)
    requires Width(xs, w) && c < w
    ensures ColumnTotal(Merge(xs, w), c) == ColumnTotal(xs, c)
  {
    if xs != [] {
      var init := xs[..|xs| - 1];
      MergeColumnTotal(init, w, c);
      MergeStepColumnTotal(Merge(init, w), xs[|xs| - 1], w, c);
    }
  }

  /** Merging one more stack adds its value to the column total. */
  lemma MergeStepColumnTotal(u: seq<Stack>, s: Stack, w: nat, c: nat)
    requires Width(u, w) && |s.value| == w && c < w
    ensures ColumnTotal(MergeStep(u, s, w), c) == ColumnTotal(u, c) + s.value[c]
  {
    if u != [] && u[|u| - 1].line == s.line {
      var last := u[|u| - 1];
      var front := u[..|u| - 1];
      var merged := last.(value := AddValues(last.value, s.value));
      assert u == front + [last];
      ColumnTotalAppend(front, [last], c);
      ColumnTotalAppend(front, [merged], c);
      assert ColumnTotal([last], c) == last.value[c] by {
        assert [last][..0] == [];
      }
      assert ColumnTotal([merged], c) == last.value[c] + s.value[c] by {
        assert [merged][..0] == [];
      }
    } else if u != [] {
      assert (u + [s])[..|u|] == u;
    }
  }


  /** The total of column c over the stacks whose line is l. */
  function LineTotal(xs: seq<Stack>, l: string, c: nat): int
    requires forall i :: 0 <= i < |xs| ==> c < |xs[i].value|
  {
    if xs == [] then 0
    else LineTotal(xs[..|xs| - 1], l, c) + (if xs[|xs| - 1].line == l then xs[|xs| - 1].value[c] else 0)
  }

  /** The element-wise sum of the values of the stacks whose line is l. */
  ghost function LineSum(xs: seq<Stack>, l: string, w: nat): (r: seq<int>)
    requires Width(xs, w)
  {
    seq(w, c requires 0 <= c < w => LineTotal(xs, l, c))
  }

  /** The funcs of the first stack whose line is l, [] when there is none. */
  ghost function FirstFuncs(xs: seq<Stack>, l: string): seq<string>
  {
    if xs == [] then []
    else if l in Lines(xs[..|xs| - 1]) then FirstFuncs(xs[..|xs| - 1], l)
    else if xs[|xs| - 1].line == l then xs[|xs| - 1].funcs
    else []
  }

  lemma {:induction false} LineTotalAbsent(xs: seq<Stack>, l: string, c: nat)
    requires forall i :: 0 <= i < |xs| ==> c < |xs[i].value|
    requires l !in Lines(xs)
    ensures LineTotal(xs, l, c) == 0
  {
    if xs != [] {
      var init := xs[..|xs| - 1];
      assert xs == init + [xs[|xs| - 1]];
      LinesAppend(init, xs[|xs| - 1]);
      LineTotalAbsent(init, l, c);
    }
  }

  /** Where the last stack of a sorted list goes in the merge: onto the last
      merged stack when an earlier stack has its line, and otherwise after
      all of them, no earlier stack having its line. */
  lemma MergeTail(xs: seq<Stack>, w: nat)
    requires Width(xs, w) && SortedByLine(xs) && xs != []
    ensures var init, s := xs[..|xs| - 1], xs[|xs| - 1];
      var u := Merge(init, w);
      Width(init, w) && SortedByLine(init) && StrictlySortedByLine(u) && Lines(u) == Lines(init)
      && (u == [] <==> init == [])
      && (s.line in Lines(init) <==> u != [] && u[|u| - 1].line == s.line)
  {
    var init, s := xs[..|xs| - 1], xs[|xs| - 1];
    assert SortedByLine(init);
    MergeStrictlySorted(init, w);
    MergeLines(init, w);
    var u := Merge(init, w);
    if u != [] && u[|u| - 1].line != s.line {
      forall i | 0 <= i < |u| ensures u[i].line != s.line {
        if u[i].line == s.line {
          LessEqAntisymmetric(u[|u| - 1].line, s.line);
        }
      }
    }
    if u != [] && u[|u| - 1].line == s.line {
      assert u[|u| - 1].line in Lines(u);
    }
  }

  /** Every merged stack holds, in column c, the total of that column over
      all stacks with its line. */
  lemma {:induction false} MergeLineTotal(xs: seq<Stack>, w: nat, c: nat)
    requires Width(xs, w) && SortedByLine(xs) && c < w
    ensures forall j :: 0 <= j < |Merge(xs, w)| ==> Merge(xs, w)[j].value[c] == LineTotal(xs, Merge(xs, w)[j].line, c)
  {
    if xs != [] {
      var init, s := xs[..|xs| - 1], xs[|xs| - 1];
      MergeTail(xs, w);
      MergeLineTotal(init, w, c);
      var u := Merge(init, w);
      var r := Merge(xs, w);
      if u == [] {
        assert r == [s];
      } else if u[|u| - 1].line == s.line {
        forall j | 0 <= j < |r| ensures r[j].value[c] == LineTotal(xs, r[j].line, c) {
          if j < |u| - 1 {
            assert r[j] == u[j] && u[j].line != u[|u| - 1].line;
          }
        }
      } else {
        forall j | 0 <= j < |r| ensures r[j].value[c] == LineTotal(xs, r[j].line, c) {
          if j < |u| {
            assert r[j] == u[j] && u[j].line in Lines(u);
          } else {
            LineTotalAbsent(init, s.line, c);
          }
        }
      }
    }
  }

  /** Every merged stack keeps the funcs of the first stack with its line. */
  lemma {:induction false} MergeFirstFuncs(xs: seq<Stack>, w: nat)
    requires Width(xs, w) && SortedByLine(xs)
    ensures forall j :: 0 <= j < |Merge(xs, w)| ==> Merge(xs, w)[j].funcs == FirstFuncs(xs, Merge(xs, w)[j].line)
  {
    if xs != [] {
      var init, s := xs[..|xs| - 1], xs[|xs| - 1];
      MergeTail(xs, w);
      MergeFirstFuncs(init, w);
      var u := Merge(init, w);
      var r := Merge(xs, w);
      if u == [] {
        assert r == [s];
      } else {
        forall j | 0 <= j < |r| ensures r[j].funcs == FirstFuncs(xs, r[j].line) {
          if j < |u| {
            assert u[j].line in Lines(u);
            if u[|u| - 1].line == s.line && j < |u| - 1 {
              assert r[j] == u[j];
            }
          }
        }
      }
    }
  }

  lemma {:induction false} LineTotalAppend(xs: seq<Stack>, ys: seq<Stack>, l: string, c: nat)
    requires forall i :: 0 <= i < |xs| ==> c < |xs[i].value|
    requires forall i :: 0 <= i < |ys| ==> c < |ys[i].value|
    ensures LineTotal(xs + ys, l, c) == LineTotal(xs, l, c) + LineTotal(ys, l, c)
  {
    if ys != [] {
      assert (xs + ys)[..|xs + ys| - 1] == xs + ys[..|ys| - 1];
      LineTotalAppend(xs, ys[..|ys| - 1], l, c);
    } else {
      assert xs + ys == xs;
    }
  }

  lemma {:induction false} InsertByLineLineTotal(x: Stack, xs: seq<Stack>, w: nat, l: string, c: nat)
    requires Width(xs, w) && |x.value| == w && c < w
    ensures Width(InsertByLine(x, xs), w)
    ensures LineTotal(InsertByLine(x, xs), l, c) == LineTotal(xs, l, c) + LineTotal([x], l, c)
  {
    if xs == [] || LessEq(x.line, xs[0].line) {
      LineTotalAppend([x], xs, l, c);
    } else {
      InsertByLineLineTotal(x, xs[1..], w, l, c);
      LineTotalAppend([xs[0]], InsertByLine(x, xs[1..]), l, c);
      LineTotalAppend([xs[0]], xs[1..], l, c);
      assert xs == [xs[0]] + xs[1..];
    }
  }

  /** Sorting keeps every line's total of every column. */
  lemma {:induction false} SortByLineLineTotal(xs: seq<Stack>, w: nat, l: string, c: nat)
    requires Width(xs, w) && c < w
    ensures Width(SortByLine(xs), w)
    ensures LineTotal(SortByLine(xs), l, c) == LineTotal(xs, l, c)
  {
    if xs != [] {
      SortByLineLineTotal(xs[1..], w, l, c);
      InsertByLineLineTotal(xs[0], SortByLine(xs[1..]), w, l, c);
      LineTotalAppend([xs[0]], xs[1..], l, c);
      assert xs == [xs[0]] + xs[1..];
    }
  }

  lemma {:induction false} InsertByLineColumnTotal(x: Stack, xs: seq<Stack>, w: nat, c: nat)
    requires Width(xs, w) && |x.value| == w && c < w
    ensures Width(InsertByLine(x, xs), w)
    ensures ColumnTotal(InsertByLine(x, xs), c) == ColumnTotal(xs, c) + x.value[c]
  {
    if xs == [] || LessEq(x.line, xs[0].line) {
      ColumnTotalAppend([x], xs, c);
      assert [x][..0] == [];
    } else {
      InsertByLineColumnTotal(x, xs[1..], w, c);
      ColumnTotalAppend([xs[0]], InsertByLine(x, xs[1..]), c);
      ColumnTotalAppend([xs[0]], xs[1..], c);
      assert [xs[0]][..0] == [];
      assert xs == [xs[0]] + xs[1..];
    }
  }

  /** Sorting keeps the width of every stack and the total of every column. */
  lemma {:induction false} SortByLineColumnTotal(xs: seq<Stack>, w: nat, c: nat)
    requires Width(xs, w) && c < w
    ensures Width(SortByLine(xs), w)
    ensures ColumnTotal(SortByLine(xs), c) == ColumnTotal(xs, c)
  {
    if xs != [] {
      SortByLineColumnTotal(xs[1..], w, c);
      InsertByLineColumnTotal(xs[0], SortByLine(xs[1..]), w, c);
      ColumnTotalAppend([xs[0]], xs[1..], c);
      assert [xs[0]][..0] == [];
      assert xs == [xs[0]] + xs[1..];
    }
  }

  lemma SortByLineWidth(xs: seq<Stack>, w: nat)
    requires Width(xs, w)
    ensures Width(SortByLine(xs), w)
    ensures Lines(SortByLine(xs)) == Lines(xs)
  {
    var r := SortByLine(xs);
    forall i | 0 <= i < |r| ensures |r[i].value| == w && r[i].line in Lines(xs) {
      assert r[i] in multiset(xs);
    }
    forall l | l in Lines(xs) ensures l in Lines(r) {
      var i :| 0 <= i < |xs| && xs[i].line == l;
      assert xs[i] in multiset(r);
    }
  }

  /** The stacks of a profile's samples, in sample order. */
  function Stacks(p: seq<Sample>): (r: seq<Stack>)
    ensures |r| == |p|
    ensures forall i :: 0 <= i < |p| ==> r[i] == ToStack(p[i])
  {
    if p == [] then [] else Stacks(p[..|p| - 1]) + [ToStack(p[|p| - 1])]
  }

  /** The first loop of stackCollapseProfile: one stack per sample, in
      sample order. */
  method BuildStacks(p: seq<Sample>) returns (ret: seq<Stack>)
    ensures ret == Stacks(p)
  {
    ret := [];
    for i := 0 to |p|
      invariant ret == Stacks(p[..i])
    {
      var funcs, line := SampleStackToStrings(p[i]);
      assert p[..i + 1][..i] == p[..i];
      ret := ret + [Stack(funcs, line, p[i].value)];
    }
    assert p[..|p|] == p;
  }

  /** The merge loop of stackCollapseProfile over the sorted stacks. */
  method MergeRuns(ret: seq<Stack>, w: nat) returns (unique: seq<Stack>)
    requires Width(ret, w)
    ensures unique == Merge(ret, w)
  {
    unique := [];
    for i := 0 to |ret|
      invariant Width(ret[..i], w)
      invariant unique == Merge(ret[..i], w)
    {
      var s := ret[i];
      assert ret[..i + 1][..i] == ret[..i] && ret[..i + 1][i] == s;
      ghost var before := unique;
      if |unique| == 0 {
        unique := unique + [s];
      } else if unique[|unique| - 1].line == s.line {
        var last := unique[|unique| - 1];
        unique := unique[..|unique| - 1] + [last.(value := AddValues(last.value, s.value))];
      } else {
        unique := unique + [s];
      }
      assert unique == MergeStep(before, s, w);
    }
    assert ret[..|ret|] == ret;
  }

  /** stackCollapseProfile: build, sort, merge. */
  method StackCollapseProfile(p: seq<Sample>, w: nat) returns (unique: seq<Stack>)
    requires forall i :: 0 <= i < |p| ==> |p[i].value| == w
    ensures Width(SortByLine(Stacks(p)), w) && unique == Merge(SortByLine(Stacks(p)), w)
    ensures StrictlySortedByLine(unique)
    ensures Lines(unique) == Lines(Stacks(p))
    ensures forall c :: 0 <= c < w ==> ColumnTotal(unique, c) == ColumnTotal(Stacks(p), c)
    ensures forall j :: 0 <= j < |unique| ==>
      unique[j].value == LineSum(Stacks(p), unique[j].line, w)
      && unique[j].funcs == FirstFuncs(SortByLine(Stacks(p)), unique[j].line)
  {
    var ret := BuildStacks(p);
    SortByLineWidth(ret, w);
    ret := SortByLine(ret);
    unique := MergeRuns(ret, w);
    forall c | 0 <= c < w
      ensures ColumnTotal(unique, c) == ColumnTotal(Stacks(p), c)
    {
      CollapseProperties(p, w, c);
    }
    CollapseSums(p, w);
    if w == 0 {
      SortByLineSorted(Stacks(p));
      MergeStrictlySorted(ret, w);
      MergeLines(ret, w);
    } else {
      CollapseProperties(p, w, 0);
    }
  }

  /** Every merged stack carries, as its whole value, the per-column sums
      over the samples with its line, and the funcs of the first of them in
      sorted order. */
  lemma CollapseSums(p: seq<Sample>, w: nat)
    requires forall i :: 0 <= i < |p| ==> |p[i].value| == w
    ensures Width(SortByLine(Stacks(p)), w)
    ensures var u := Merge(SortByLine(Stacks(p)), w);
      forall j :: 0 <= j < |u| ==>
        u[j].value == LineSum(Stacks(p), u[j].line, w) && u[j].funcs == FirstFuncs(SortByLine(Stacks(p)), u[j].line)
  {
    var st := Stacks(p);
    SortByLineWidth(st, w);
    forall j | 0 <= j < |Merge(SortByLine(st), w)|
      ensures var u := Merge(SortByLine(st), w);
        u[j].value == LineSum(st, u[j].line, w) && u[j].funcs == FirstFuncs(SortByLine(st), u[j].line)
    {
      MergedStack(st, w, j);
    }
  }

  /** The j-th merged stack: its value holds the column sums over the
      stacks with its line, and its funcs are those of the first of them. */
  lemma MergedStack(st: seq<Stack>, w: nat, j: nat)
    requires Width(st, w) && Width(SortByLine(st), w)
    requires j < |Merge(SortByLine(st), w)|
    ensures var u := Merge(SortByLine(st), w);
      u[j].value == LineSum(st, u[j].line, w) && u[j].funcs == FirstFuncs(SortByLine(st), u[j].line)
  {
    var xs := SortByLine(st);
    var u := Merge(xs, w);
    SortByLineSorted(st);
    MergeFirstFuncs(xs, w);
    forall c | 0 <= c < w ensures u[j].value[c] == LineTotal(st, u[j].line, c) {
      MergedColumn(st, w, j, c);
    }
  }

  /** Column c of the j-th merged stack is the total of that column over
      the stacks with its line. */
  lemma MergedColumn(st: seq<Stack>, w: nat, j: nat, c: nat)
    requires Width(st, w) && Width(SortByLine(st), w) && c < w
    requires j < |Merge(SortByLine(st), w)|
    ensures var u := Merge(SortByLine(st), w); u[j].value[c] == LineTotal(st, u[j].line, c)
  {
    var xs := SortByLine(st);
    SortByLineSorted(st);
    MergeLineTotal(xs, w, c);
    SortByLineLineTotal(st, w, Merge(xs, w)[j].line, c);
  }

  /** What collapsing promises: the result is sorted by line with no line
      repeated, it has exactly the stack strings of the samples, every value
      column keeps its total, and each merged stack holds, column by column,
      the sum over all samples with its line and the funcs of the first of
      them in sorted order. */
  lemma CollapseProperties(p: seq<Sample>, w: nat, c: nat)
    requires forall i :: 0 <= i < |p| ==> |p[i].value| == w
    requires c < w
    ensures Width(SortByLine(Stacks(p)), w)
    ensures StrictlySortedByLine(Merge(SortByLine(Stacks(p)), w))
    ensures Lines(Merge(SortByLine(Stacks(p)), w)) == Lines(Stacks(p))
    ensures ColumnTotal(Merge(SortByLine(Stacks(p)), w), c) == ColumnTotal(Stacks(p), c)
    ensures var u := Merge(SortByLine(Stacks(p)), w);
      forall j :: 0 <= j < |u| ==>
        u[j].value[c] == LineTotal(Stacks(p), u[j].line, c) && u[j].funcs == FirstFuncs(SortByLine(Stacks(p)), u[j].line)
  {
    var st := Stacks(p);
    SortByLineWidth(st, w);
    SortByLineSorted(st);
    MergeStrictlySorted(SortByLine(st), w);
    MergeLines(SortByLine(st), w);
    MergeColumnTotal(SortByLine(st), w, c);
    SortByLineColumnTotal(st, w, c);
    MergeLineTotal(SortByLine(st), w, c);
    MergeFirstFuncs(SortByLine(st), w);
    forall l: string ensures LineTotal(SortByLine(st), l, c) == LineTotal(st, l, c) {
      SortByLineLineTotal(st, w, l, c);
    }
  }
}
