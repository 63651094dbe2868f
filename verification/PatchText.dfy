/** Finding the block that Pilot keeps in the user's YAML patch file, byte by byte.

    A file is a string whose characters are its bytes. Markers are searched for as byte sequences
    at the start of a line; `OffsetsByLine` says the same in terms of lines. */
module PatchText {
  import opened Wrappers
  import opened Seqs
  import opened Lines

  const BEGIN := "# BEGIN "
  const END := "# END "

  predicate IsBoundary(c: char) { c == ' ' || c == '\t' || c == '\r' || c == '\n' }

  predicate MarkedAt(bytes: string, needle: string, i: nat) {
    && OccursAt(bytes, needle, i)
    && (i == 0 || bytes[i - 1] == '\n')
    && (i + |needle| == |bytes| || IsBoundary(bytes[i + |needle|]))
  }

  /** Every offset from `from` on at which a marker line starts, in order. */
  function Offsets(bytes: string, needle: string, from: nat): seq<nat>
    decreases |bytes| - from
  {
    if from >= |bytes| then []
    else (if MarkedAt(bytes, needle, from) then [from] else []) + Offsets(bytes, needle, from + 1)
  }

  /** `bytes.indexOf(needle, from)`: what it passes over holds no marker. */
  method IndexOf(bytes: string, needle: string, from: nat) returns (index: int)
    requires from <= |bytes|
    ensures index >= 0 ==> from <= index && OccursAt(bytes, needle, index)
    ensures index >= 0 ==> Offsets(bytes, needle, from) == Offsets(bytes, needle, index)
    ensures index < 0 ==> Offsets(bytes, needle, from) == []
  {
    index := from;
    while index + |needle| <= |bytes|
      invariant from <= index <= |bytes|
      invariant Offsets(bytes, needle, from) == Offsets(bytes, needle, index)
    {
      if bytes[index..index + |needle|] == needle { return; }
      if index == |bytes| { break; }
      index := index + 1;
    }
    OffsetsSkip(bytes, needle, index, |bytes|);
    index := -1;
  }

  method FindLineMarkerOffsets(bytes: string, needle: string) returns (offsets: seq<nat>)
    requires IsLine(needle) && needle != ""
    ensures offsets == Offsets(bytes, needle, 0)
  {
    offsets := [];
    var from := 0;
    while from < |bytes|
      invariant offsets + Offsets(bytes, needle, from) == Offsets(bytes, needle, 0)
      decreases |bytes| - from
    {
      var found, next := NextOffset(bytes, needle, from);
      AppendAssociates(offsets, found, Offsets(bytes, needle, next));
      offsets, from := offsets + found, next;
    }
  }

  /** One turn of the search: the marker at the next match, if it is one, and where to go on. */
  method NextOffset(bytes: string, needle: string, from: nat) returns (found: seq<nat>, next: nat)
    requires IsLine(needle) && needle != "" && from < |bytes|
    ensures from < next && Offsets(bytes, needle, from) == found + Offsets(bytes, needle, next)
  {
    var index := IndexOf(bytes, needle, from);
    if index < 0 { return [], |bytes|; }
    var atLineStart := index == 0 || bytes[index - 1] == '\n';
    next := index + |needle|;
    var boundary := next == |bytes| || IsBoundary(bytes[next]);
    OffsetsInside(bytes, needle, index);
    found := if atLineStart && boundary then [index] else [];
  }

  /** Stretches without a marker do not matter. */
  lemma {:induction false} OffsetsSkip(bytes: string, needle: string, a: nat, b: nat)
    requires a <= b <= |bytes| && forall i :: a <= i < b ==> !MarkedAt(bytes, needle, i)
    ensures Offsets(bytes, needle, a) == Offsets(bytes, needle, b)
    decreases b - a
  {
    if a < b {
      assert !MarkedAt(bytes, needle, a);
      OffsetsSkip(bytes, needle, a + 1, b);
    }
  }

  /** No marker line starts inside a match: it would need a line break there. */
  lemma {:induction false} OffsetsInside(bytes: string, needle: string, index: nat)
    requires IsLine(needle) && needle != "" && OccursAt(bytes, needle, index)
    ensures Offsets(bytes, needle, index)
         == (if MarkedAt(bytes, needle, index) then [index] else []) + Offsets(bytes, needle, index + |needle|)
  {
    forall i | index < i < index + |needle| ensures !MarkedAt(bytes, needle, i) {
      assert bytes[index..index + |needle|][i - 1 - index] == bytes[i - 1];
      assert bytes[i - 1] == needle[i - 1 - index];
    }
    OffsetsSkip(bytes, needle, index + 1, index + |needle|);
  }

  // ---------------------------------------------------------------- the same by lines

  predicate IsMarker(line: string, needle: string) {
    needle <= line && (|line| == |needle| || IsBoundary(line[|needle|]))
  }

  /** A marker line is the marker alone, or the marker and then a blank, a tab or a line break. */
  lemma {:induction false} MarkerLineIs(line: string, needle: string)
    ensures IsMarker(line, needle) <==>
              line == needle || exists c: char :: c in " \t\r\n" && needle + [c] <= line
  {
    if IsMarker(line, needle) && |line| > |needle| { assert needle + [line[|needle|]] <= line; }
    if IsMarker(line, needle) && |line| == |needle| { assert line == needle; }
    if c: char :| c in " \t\r\n" && needle + [c] <= line { assert (needle + [c])[|needle|] == line[|needle|]; }
  }

  /** The offsets of the marker lines of `ls`, when the first line starts at `base`. */
  function LineOffsets(ls: seq<string>, needle: string, base: nat): seq<nat> {
    if ls == [] then []
    else (if IsMarker(ls[0], needle) then [base] else []) + LineOffsets(ls[1..], needle, base + |ls[0]| + 1)
  }

  /** A line of `bytes` from `i` to `j`: no marker starts inside it, and whether one starts with it
      depends on the line alone. */
  lemma {:induction false} OffsetsOfLine(bytes: string, needle: string, i: nat, j: nat)
    requires IsLine(needle) && needle != ""
    requires i <= j <= |bytes| && (i == 0 || bytes[i - 1] == '\n') && (j == |bytes| || bytes[j] == '\n')
    requires IsLine(bytes[i..j])
    ensures Offsets(bytes, needle, i)
         == (if IsMarker(bytes[i..j], needle) then [i] else [])
              + Offsets(bytes, needle, if j < |bytes| then j + 1 else j)
  {
    var line := bytes[i..j];
    var stop := if j < |bytes| then j + 1 else j;
    assert MarkedAt(bytes, needle, i) <==> IsMarker(line, needle) by { MarkedLine(bytes, needle, i, j); }
    forall k | i < k < stop ensures !MarkedAt(bytes, needle, k) { assert line[k - 1 - i] == bytes[k - 1]; }
    if i < stop { OffsetsSkip(bytes, needle, i + 1, stop); }
  }

  lemma {:induction false} HasBreak(bytes: string, i: nat, j: nat, at: nat)
    requires i <= at < j <= |bytes| && bytes[at] == '\n'
    ensures !IsLine(bytes[i..j])
  {
    assert bytes[i..j][at - i] == '\n';
  }

  lemma {:induction false} MarkedLine(bytes: string, needle: string, i: nat, j: nat)
    requires IsLine(needle) && needle != ""
    requires i <= j <= |bytes| && (i == 0 || bytes[i - 1] == '\n') && (j == |bytes| || bytes[j] == '\n')
    requires IsLine(bytes[i..j])
    ensures MarkedAt(bytes, needle, i) <==> IsMarker(bytes[i..j], needle)
  {
    var line, next := bytes[i..j], i + |needle|;
    if j < next <= |bytes| { HasBreak(bytes, i, next, j); }
    if next <= j {
      assert line[..|needle|] == bytes[i..next];
      if next < j { assert line[|needle|] == bytes[next]; }
    }
  }

  /** The byte search finds exactly the marker lines. */
  lemma {:induction false} OffsetsByLine(bytes: string, needle: string)
    requires IsLine(needle) && needle != ""
    ensures Offsets(bytes, needle, 0) == LineOffsets(Split(bytes), needle, 0)
  {
    assert bytes[0..] == bytes;
    OffsetsFrom(bytes, needle, 0, Split(bytes));
  }

  lemma {:induction false} OffsetsFrom(bytes: string, needle: string, i: nat, ls: seq<string>)
    requires IsLine(needle) && needle != "" && i <= |bytes| && (i == 0 || bytes[i - 1] == '\n')
    requires ls == Split(bytes[i..])
    ensures Offsets(bytes, needle, i) == LineOffsets(ls, needle, i)
    decreases |bytes| - i
  {
    var j := LineEnd(bytes, i);
    var rest := if j < |bytes| then Split(bytes[j + 1..]) else [];
    SplitFirst(bytes, i);
    OffsetsOfLine(bytes, needle, i, j);
    if j < |bytes| { OffsetsFrom(bytes, needle, j + 1, rest); }
    OffsetsJoin(bytes, needle, i, j, ls, rest);
  }

  lemma {:induction false} OffsetsJoin(bytes: string, needle: string, i: nat, j: nat, ls: seq<string>,
        rest: seq<string>)
    requires i <= j <= |bytes| && ls == [bytes[i..j]] + rest && (j == |bytes| ==> rest == [])
    requires Offsets(bytes, needle, i)
          == (if IsMarker(bytes[i..j], needle) then [i] else []) + Offsets(bytes, needle, if j < |bytes| then j + 1 else j)
    requires j < |bytes| ==> Offsets(bytes, needle, j + 1) == LineOffsets(rest, needle, j + 1)
    ensures Offsets(bytes, needle, i) == LineOffsets(ls, needle, i)
  {
    LineOffsetsCons(bytes[i..j], rest, needle, i);
  }

  lemma {:induction false} LineOffsetsCons(line: string, ls: seq<string>, needle: string, base: nat)
    ensures LineOffsets([line] + ls, needle, base)
         == (if IsMarker(line, needle) then [base] else []) + LineOffsets(ls, needle, base + |line| + 1)
  {
    assert ([line] + ls)[1..] == ls;
  }

  lemma {:induction false} LineEndIs(bytes: string, i: nat, j: nat)
    requires i <= j <= |bytes| && IsLine(bytes[i..j]) && (j < |bytes| ==> bytes[j] == '\n')
    ensures LineEnd(bytes, i) == j
  {
    var k := LineEnd(bytes, i);
    if k < j { HasBreak(bytes, i, j, k); }
    if j < k { HasBreak(bytes, i, k, j); }
  }

  lemma {:induction false} SplitFirst(bytes: string, i: nat)
    requires i <= |bytes|
    ensures var j := LineEnd(bytes, i);
            Split(bytes[i..]) == [bytes[i..j]] + if j < |bytes| then Split(bytes[j + 1..]) else []
  {
    var j := LineEnd(bytes, i);
    SplitLine(bytes[i..j]);
    if j < |bytes| {
      assert bytes[i..] == bytes[i..j] + "\n" + bytes[j + 1..];
      SplitAppend(bytes[i..j], bytes[j + 1..]);
    } else {
      assert bytes[i..] == bytes[i..j];
    }
  }

  function Span(ls: seq<string>): nat { if ls == [] then 0 else |ls[0]| + 1 + Span(ls[1..]) }

  lemma {:induction false} LineOffsetsAppend(a: seq<string>, b: seq<string>, needle: string, base: nat)
    ensures LineOffsets(a + b, needle, base) == LineOffsets(a, needle, base) + LineOffsets(b, needle, base + Span(a))
    decreases |a|
  {
    if a == [] {
      assert a + b == b;
    } else {
      assert (a + b)[1..] == a[1..] + b;
      LineOffsetsAppend(a[1..], b, needle, base + |a[0]| + 1);
    }
  }

  lemma {:induction false} SpanAppend(a: seq<string>, b: seq<string>)
    ensures Span(a + b) == Span(a) + Span(b)
    decreases |a|
  {
    if a == [] {
      assert a + b == b;
    } else {
      assert (a + b)[1..] == a[1..] + b;
      SpanAppend(a[1..], b);
    }
  }

  lemma {:induction false} NoLineOffsets(ls: seq<string>, needle: string, base: nat, at: nat)
    requires LineOffsets(ls, needle, base) == []
    ensures LineOffsets(ls, needle, at) == []
    decreases |ls|
  {
    if ls != [] { NoLineOffsets(ls[1..], needle, base + |ls[0]| + 1, at + |ls[0]| + 1); }
  }

  lemma {:induction false} SpanIs(text: string)
    ensures Span(Split(text)) == |text| + 1
  {
    if text != "" {
      SpanIs(text[1..]);
      var ls, rest := Split(text), Split(text[1..]);
      if text[0] == '\n' {
        assert ([""] + rest)[1..] == rest;
      } else {
        assert ls[1..] == rest[1..];
      }
    }
  }

  /** A text that ends in a line break, or is empty, has the length its lines take. */
  lemma {:induction false} SpanWhole(text: string)
    requires Tail(text) == ""
    ensures Span(WholeLines(text)) == |text|
  {
    SpanIs(text);
    assert Split(text) == WholeLines(text) + [Tail(text)];
    SpanAppend(WholeLines(text), [""]);
    assert Span([""]) == 1;
  }
}
