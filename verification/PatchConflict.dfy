/** When Pilot refuses to touch the user's patch file, said in terms of its lines: the file holds
    marker lines of ours, but not one whole block of this entry. */
module PatchConflict {
  import opened Wrappers
  import opened Seqs
  import opened Lines
  import opened PatchText
  import opened PatchBlock
  import opened PatchRoundTrip

  // ---------------------------------------------------------------- what the lines say

  predicate OnlyMarker(ls: seq<string>, needle: string, at: nat) {
    at < |ls| && forall i :: 0 <= i < |ls| ==> (IsMarker(ls[i], needle) <==> i == at)
  }

  predicate HasMarker(ls: seq<string>, needle: string) {
    exists i :: 0 <= i < |ls| && IsMarker(ls[i], needle)
  }

  /** Some line between says more than `prefix`. */
  predicate Says(ls: seq<string>, b: nat, e: nat, prefix: string)
    requires e <= |ls|
  {
    exists k :: b < k < e && prefix < StripCr(ls[k])
  }

  predicate Exact(first: string, last: string, marker: string) {
    && (|| first == "# BEGIN " + marker
        || first == "# BEGIN " + marker + " (created-file: true)"
        || first == "# BEGIN " + marker + " (created-file: false)")
    && last == "# END " + marker
  }

  /** Lines `b` to `e` are our block: the only BEGIN line and, after it, the only END line, both
      exactly as they are written, with the three lines of metadata between. */
  predicate WholeBlock(ls: seq<string>, marker: string, b: nat, e: nat) {
    && b < e < |ls|
    && OnlyMarker(ls, "# BEGIN " + marker, b) && OnlyMarker(ls, "# END " + marker, e)
    && Exact(StripCr(ls[b]), StripCr(ls[e]), marker)
    && Says(ls, b, e, "# entryId=") && Says(ls, b, e, "# pluginSource=") && Says(ls, b, e, "# pluginHash=")
  }

  ghost predicate HasBlock(ls: seq<string>, marker: string) { exists b: nat, e: nat :: WholeBlock(ls, marker, b, e) }

  predicate HasMarkers(ls: seq<string>, marker: string) {
    HasMarker(ls, "# BEGIN " + marker) || HasMarker(ls, "# END " + marker)
  }

  /** The block is the one of this entry. */
  predicate NamesEntry(ls: seq<string>, b: nat, e: nat, entryId: string)
    requires e <= |ls|
  {
    exists k :: b < k < e && StripCr(ls[k]) == "# entryId=" + entryId
  }

  // ---------------------------------------------------------------- offsets and lines

  /** What is left of the text from line `k` on. */
  lemma {:induction false} SplitFrom(bytes: string, k: nat)
    requires k < |Split(bytes)|
    ensures Span(Split(bytes)[..k]) <= |bytes| && Split(bytes[Span(Split(bytes)[..k])..]) == Split(bytes)[k..]
  {
    var ls := Split(bytes);
    if k == 0 {
      assert ls[..0] == [] && bytes[0..] == bytes && ls[0..] == ls;
    } else {
      SplitFrom(bytes, k - 1);
      SpanSnoc(ls, k);
      RestStands(bytes, Span(ls[..k - 1]), ls[k - 1..]);
      assert ls[k - 1..][1..] == ls[k..];
    }
  }

  /** Where line `k` stands in the text. */
  lemma {:induction false} LineStands(bytes: string, k: nat)
    requires k < |Split(bytes)|
    ensures var ls, o := Split(bytes), Span(Split(bytes)[..k]);
            && o + |ls[k]| <= |bytes| && bytes[o..o + |ls[k]|] == ls[k] && LineEnd(bytes, o) == o + |ls[k]|
            && Split(bytes[o..]) == ls[k..]
            && (k + 1 < |ls| <==> o + |ls[k]| < |bytes|)
  {
    SplitFrom(bytes, k);
    FirstLineStands(bytes, Span(Split(bytes)[..k]), Split(bytes)[k..]);
  }

  lemma {:induction false} SpanSnoc(ls: seq<string>, k: nat)
    requires 0 < k <= |ls|
    ensures Span(ls[..k]) == Span(ls[..k - 1]) + |ls[k - 1]| + 1
  {
    assert ls[..k] == ls[..k - 1] + [ls[k - 1]];
    SpanAppend(ls[..k - 1], [ls[k - 1]]);
    assert [ls[k - 1]][1..] == [];
  }

  lemma {:induction false} RestStands(bytes: string, o: nat, ls: seq<string>)
    requires o <= |bytes| && Split(bytes[o..]) == ls && 1 < |ls|
    ensures var j := o + |ls[0]|; j < |bytes| && bytes[j] == '\n' && Split(bytes[j + 1..]) == ls[1..]
  {
    SplitFirst(bytes, o);
    var j := LineEnd(bytes, o);
    assert ls[0] == bytes[o..j] && |ls[0]| == j - o;
    if j < |bytes| { ConsTail(ls, bytes[o..j], Split(bytes[j + 1..])); }
  }

  lemma {:induction false} ConsTail(ls: seq<string>, first: string, rest: seq<string>)
    requires ls == [first] + rest
    ensures ls[1..] == rest
  {
  }

  lemma {:induction false} FirstLineStands(bytes: string, o: nat, ls: seq<string>)
    requires o <= |bytes| && Split(bytes[o..]) == ls
    ensures o + |ls[0]| <= |bytes| && bytes[o..o + |ls[0]|] == ls[0] && LineEnd(bytes, o) == o + |ls[0]|
    ensures 1 < |ls| <==> o + |ls[0]| < |bytes|
  {
    SplitFirst(bytes, o);
  }

  lemma {:induction false} SpanGrows(ls: seq<string>, b: nat, e: nat)
    requires b <= e <= |ls|
    ensures Span(ls[..b]) + (e - b) <= Span(ls[..e])
  {
    assert ls[..e] == ls[..b] + ls[b..e];
    SpanAppend(ls[..b], ls[b..e]);
    SpanAtLeast(ls[b..e]);
  }

  lemma {:induction false} SpanAtLeast(ls: seq<string>)
    ensures |ls| <= Span(ls)
  {
    if ls != [] { SpanAtLeast(ls[1..]); }
  }

  /** The marker lines are one, at `k`, exactly when one offset is found: that of line `k`. */
  lemma {:induction false} OneOffset(ls: seq<string>, needle: string)
    ensures |LineOffsets(ls, needle, 0)| == 1 <==> exists k: nat :: OnlyMarker(ls, needle, k)
    ensures LineOffsets(ls, needle, 0) == [] <==> !HasMarker(ls, needle)
  {
    if k: nat :| OnlyMarker(ls, needle, k) { OneMarker(ls, needle, k, 0); }
    if !HasMarker(ls, needle) {
      NoMarker(ls, needle, 0);
    } else {
      var i :| 0 <= i < |ls| && IsMarker(ls[i], needle);
      MarkerIsFound(ls, needle, i, 0);
      if !OnlyMarker(ls, needle, i) {
        var j :| 0 <= j < |ls| && IsMarker(ls[j], needle) && j != i;
        TwoAreFound(ls, needle, if i < j then i else j, if i < j then j else i);
      }
    }
  }

  lemma {:induction false} MarkerIsFound(ls: seq<string>, needle: string, i: nat, base: nat)
    requires i < |ls| && IsMarker(ls[i], needle)
    ensures |LineOffsets(ls, needle, base)| >= 1
    decreases |ls|
  {
    if i > 0 { MarkerIsFound(ls[1..], needle, i - 1, base + |ls[0]| + 1); }
  }

  lemma {:induction false} TwoAreFound(ls: seq<string>, needle: string, i: nat, j: nat)
    requires i < j < |ls| && IsMarker(ls[i], needle) && IsMarker(ls[j], needle)
    ensures |LineOffsets(ls, needle, 0)| >= 2
  {
    assert ls == ls[..j] + ls[j..];
    LineOffsetsAppend(ls[..j], ls[j..], needle, 0);
    MarkerIsFound(ls[..j], needle, i, 0);
    MarkerIsFound(ls[j..], needle, 0, Span(ls[..j]));
  }

  // ---------------------------------------------------------------- the block's own lines

  lemma {:induction false} ExtendsIff(ls: seq<string>, prefix: string)
    ensures SomeExtends(ls, prefix) <==> exists k :: 0 <= k < |ls| && prefix < ls[k]
  {
    if ls != [] {
      ExtendsIff(ls[1..], prefix);
      if k :| 0 <= k < |ls| && prefix < ls[k] {
        if k > 0 { assert prefix < ls[1..][k - 1]; }
      }
      if SomeExtends(ls[1..], prefix) {
        var k :| 0 <= k < |ls| - 1 && prefix < ls[1..][k];
        assert prefix < ls[k + 1];
      }
    }
  }

  /** The file's lines from the BEGIN line to the END line, as `split` gives them for the block's
      text: nothing is stripped off a last line that no line break ends. */
  function OwnLines(ls: seq<string>, b: nat, e: nat): seq<string>
    requires b < e < |ls|
  {
    if e + 1 < |ls| then Map(StripCr, ls[b..e + 1]) + [""] else Map(StripCr, ls[b..e]) + [ls[e]]
  }

  lemma {:induction false} BrokenBlock(bytes: string, ls: seq<string>, n: nat, o: nat, j: nat)
    requires o <= j < |bytes| && bytes[j] == '\n' && n <= |ls|
    requires Split(bytes[o..]) == ls && Split(bytes[j + 1..]) == ls[n..]
    ensures CrLines(bytes[o..j + 1]) == Map(StripCr, ls[..n]) + [""]
  {
    assert bytes[o..] == bytes[o..j] + "\n" + bytes[j + 1..];
    SplitAppend(bytes[o..j], bytes[j + 1..]);
    assert ls == ls[..n] + ls[n..];
    SameFront(Split(bytes[o..j]), ls[..n], ls[n..]);
    assert bytes[o..j + 1] == bytes[o..j] + "\n" + "";
    SplitAppend(bytes[o..j], "");
  }

  /** The block's text has these lines. */
  lemma {:induction false} LinesOfBlock(bytes: string, b: nat, e: nat) returns (o: nat, p: nat, n: nat)
    requires b < e < |Split(bytes)|
    ensures o == Span(Split(bytes)[..b]) && p == Span(Split(bytes)[..e])
    ensures o < p <= |bytes| && n == BlockEnd(bytes, p) && p <= n <= |bytes|
    ensures CrLines(bytes[o..n]) == OwnLines(Split(bytes), b, e)
  {
    var ls := Split(bytes);
    o, p := Span(ls[..b]), Span(ls[..e]);
    LineStands(bytes, b);
    LineStands(bytes, e);
    SpanGrows(ls, b, e);
    n := BlockEnd(bytes, p);
    if e + 1 < |ls| { BrokenLines(bytes, ls, b, e, o, p); } else { LastLines(bytes, ls, b, e, o, p); }
  }

  lemma {:induction false} BrokenLines(bytes: string, ls: seq<string>, b: nat, e: nat, o: nat, p: nat)
    requires ls == Split(bytes) && b < e && e + 1 < |ls| && o <= p == Span(ls[..e]) && p <= |bytes|
    requires Split(bytes[o..]) == ls[b..] && LineEnd(bytes, p) == p + |ls[e]|
    ensures CrLines(bytes[o..BlockEnd(bytes, p)]) == OwnLines(ls, b, e)
  {
    NextLine(bytes, e);
    BrokenAt(bytes, ls, b, e, o, p + |ls[e]|);
    assert BlockEnd(bytes, p) == p + |ls[e]| + 1;
  }

  lemma {:induction false} BrokenAt(bytes: string, ls: seq<string>, b: nat, e: nat, o: nat, j: nat)
    requires b < e && e + 1 < |ls| && o <= j < |bytes| && bytes[j] == '\n'
    requires Split(bytes[o..]) == ls[b..] && Split(bytes[j + 1..]) == ls[e + 1..]
    ensures CrLines(bytes[o..j + 1]) == OwnLines(ls, b, e)
  {
    assert ls[b..][e + 1 - b..] == ls[e + 1..] && ls[b..][..e + 1 - b] == ls[b..e + 1];
    BrokenBlock(bytes, ls[b..], e + 1 - b, o, j);
  }

  lemma {:induction false} LastLines(bytes: string, ls: seq<string>, b: nat, e: nat, o: nat, p: nat)
    requires b < e && e + 1 == |ls| && o <= p <= |bytes|
    requires Split(bytes[o..]) == ls[b..] && LineEnd(bytes, p) == |bytes|
    ensures CrLines(bytes[o..BlockEnd(bytes, p)]) == OwnLines(ls, b, e)
  {
    assert bytes[o..|bytes|] == bytes[o..];
    assert ls[b..][..e - b] == ls[b..e];
  }

  lemma {:induction false} NextLine(bytes: string, e: nat)
    requires e + 1 < |Split(bytes)|
    ensures var ls := Split(bytes);
            var j := Span(ls[..e]) + |ls[e]|;
            j < |bytes| && bytes[j] == '\n' && Split(bytes[j + 1..]) == ls[e + 1..]
  {
    LineStands(bytes, e);
    RestStands(bytes, Span(Split(bytes)[..e]), Split(bytes)[e..]);
    assert Split(bytes)[e..][1..] == Split(bytes)[e + 1..];
  }

  lemma {:induction false} SameFront(a: seq<string>, b: seq<string>, c: seq<string>)
    requires a + c == b + c
    ensures a == b
  {
    assert |a| == |b|;
    assert (a + c)[..|a|] == a && (b + c)[..|a|] == b;
  }

  /** A marker line is not a line of metadata. */
  lemma {:induction false} MarkerSaysNothing(line: string, needle: string, prefix: string)
    requires IsMarker(line, needle) && |needle| > 3 && |prefix| > 2 && needle[2] != prefix[2]
    ensures !(prefix <= StripCr(line)) && !(prefix <= line)
  {
    assert line[2] == needle[2];
  }

  lemma {:induction false} OwnLineAt(ls: seq<string>, b: nat, e: nat, k: nat)
    requires b < e < |ls| && b <= k < e
    ensures |OwnLines(ls, b, e)| >= e - b + 1 && OwnLines(ls, b, e)[k - b] == StripCr(ls[k])
  {
    if e + 1 < |ls| { assert ls[b..e + 1][k - b] == ls[k]; } else { assert ls[b..e][k - b] == ls[k]; }
  }

  lemma {:induction false} OwnLastLines(ls: seq<string>, b: nat, e: nat)
    requires b < e < |ls|
    ensures forall i :: e - b <= i < |OwnLines(ls, b, e)| ==>
              OwnLines(ls, b, e)[i] == StripCr(ls[e]) || OwnLines(ls, b, e)[i] == ls[e] || OwnLines(ls, b, e)[i] == ""
  {
    if e + 1 < |ls| { assert ls[b..e + 1][e - b] == ls[e]; }
  }

  /** A line that no marker line can be is among them exactly when it stands between the markers. */
  lemma {:induction false} OwnLinesBetween(ls: seq<string>, b: nat, e: nat, prefix: string, text: string)
    requires b < e < |ls| && prefix <= text && prefix != ""
    requires !(prefix <= StripCr(ls[b])) && !(prefix <= StripCr(ls[e])) && !(prefix <= ls[e])
    ensures text in OwnLines(ls, b, e) <==> exists k :: b < k < e && StripCr(ls[k]) == text
  {
    var own := OwnLines(ls, b, e);
    OwnLineAt(ls, b, e, b);
    OwnLastLines(ls, b, e);
    if text in own {
      var i :| 0 <= i < |own| && own[i] == text;
      if i < e - b { OwnLineAt(ls, b, e, b + i); }
      assert b < b + i < e && StripCr(ls[b + i]) == text;
    }
    if k :| b < k < e && StripCr(ls[k]) == text { OwnLineAt(ls, b, e, k); }
  }

  lemma {:induction false} OwnLinesSay(ls: seq<string>, b: nat, e: nat, prefix: string)
    requires b < e < |ls| && prefix != ""
    requires !(prefix <= StripCr(ls[b])) && !(prefix <= StripCr(ls[e])) && !(prefix <= ls[e])
    ensures SomeExtends(OwnLines(ls, b, e), prefix) <==> Says(ls, b, e, prefix)
  {
    var own := OwnLines(ls, b, e);
    ExtendsIff(own, prefix);
    if i :| 0 <= i < |own| && prefix < own[i] { OwnLinesBetween(ls, b, e, prefix, own[i]); }
    if k :| b < k < e && prefix < StripCr(ls[k]) { OwnLinesBetween(ls, b, e, prefix, StripCr(ls[k])); }
  }

  /** What the block's text says is what the lines between its markers say. */
  lemma {:induction false} BlockSays(bytes: string, begin: string, end: string, b: nat, e: nat, prefix: string,
        text: string)
    requires b < e < |Split(bytes)| && IsMarker(Split(bytes)[b], begin) && IsMarker(Split(bytes)[e], end)
    requires |begin| > 3 && |end| > 3 && |prefix| > 2 && begin[2] != prefix[2] && end[2] != prefix[2]
    requires prefix <= text
    ensures var ls := Split(bytes);
            var o, p := Span(ls[..b]), Span(ls[..e]);
            && o < p <= |bytes|
            && (HasMetadataPrefix(bytes[o..BlockEnd(bytes, p)], prefix) <==> Says(ls, b, e, prefix))
            && (HasMetadataLine(bytes[o..BlockEnd(bytes, p)], text)
                <==> exists k :: b < k < e && StripCr(ls[k]) == text)
  {
    var ls := Split(bytes);
    var o, p, n := LinesOfBlock(bytes, b, e);
    MarkerSaysNothing(ls[b], begin, prefix);
    MarkerSaysNothing(ls[e], end, prefix);
    OwnLinesSay(ls, b, e, prefix);
    OwnLinesBetween(ls, b, e, prefix, text);
  }

  // ---------------------------------------------------------------- the parse

  lemma {:induction false} OffsetsAreLines(bytes: string, needle: string)
    requires IsLine(needle) && needle != ""
    ensures var offsets := Offsets(bytes, needle, 0);
            && (offsets == [] <==> !HasMarker(Split(bytes), needle))
            && (|offsets| == 1 <==> exists k: nat :: OnlyMarker(Split(bytes), needle, k))
            && forall k: nat :: OnlyMarker(Split(bytes), needle, k) ==> offsets == [Span(Split(bytes)[..k])]
  {
    OffsetsByLine(bytes, needle);
    OneOffset(Split(bytes), needle);
    forall k: nat | OnlyMarker(Split(bytes), needle, k)
      ensures Offsets(bytes, needle, 0) == [Span(Split(bytes)[..k])]
    {
      OneMarker(Split(bytes), needle, k, 0);
    }
  }

  lemma {:induction false} Needles(marker: string)
    requires IsLine(marker)
    ensures var begin, end := BEGIN + marker, END + marker;
            && IsLine(begin) && IsLine(end) && |begin| > 3 && |end| > 3
            && begin[2] == 'B' && end[2] == 'E'
  {
  }

  lemma {:induction false} MetadataIff(bytes: string, marker: string, b: nat, e: nat, entryId: string)
    returns (o: nat, p: nat)
    requires IsLine(marker) && b < e
    requires OnlyMarker(Split(bytes), BEGIN + marker, b) && OnlyMarker(Split(bytes), END + marker, e)
    ensures o == Span(Split(bytes)[..b]) && p == Span(Split(bytes)[..e]) && o < p <= |bytes|
    ensures var ls, block := Split(bytes), bytes[o..BlockEnd(bytes, p)];
            && (HasMetadataPrefix(block, ENTRY) <==> Says(ls, b, e, "# entryId="))
            && (HasMetadataPrefix(block, SOURCE) <==> Says(ls, b, e, "# pluginSource="))
            && (HasMetadataPrefix(block, HASH) <==> Says(ls, b, e, "# pluginHash="))
            && (HasMetadataLine(block, ENTRY + entryId) <==> NamesEntry(ls, b, e, entryId))
  {
    var ls, begin, end := Split(bytes), BEGIN + marker, END + marker;
    Needles(marker);
    assert IsMarker(ls[b], begin) && IsMarker(ls[e], end);
    BlockSays(bytes, begin, end, b, e, ENTRY, ENTRY + entryId);
    BlockSays(bytes, begin, end, b, e, SOURCE, SOURCE);
    BlockSays(bytes, begin, end, b, e, HASH, HASH);
    o, p := Span(ls[..b]), Span(ls[..e]);
  }

  /** What decides on the block between these two lines. */
  lemma {:induction false} DamagedIff(bytes: string, marker: string, b: nat, e: nat, entryId: string)
    returns (o: nat, p: nat)
    requires IsLine(marker) && b < e
    requires OnlyMarker(Split(bytes), BEGIN + marker, b) && OnlyMarker(Split(bytes), END + marker, e)
    ensures o == Span(Split(bytes)[..b]) && p == Span(Split(bytes)[..e]) && o < p <= |bytes|
    ensures var ls, block := Split(bytes), bytes[o..BlockEnd(bytes, p)];
            && (Damaged(bytes, o, p, block, marker) <==> !WholeBlock(ls, marker, b, e))
            && (HasMetadataLine(block, ENTRY + entryId) <==> NamesEntry(ls, b, e, entryId))
  {
    var ls := Split(bytes);
    o, p := MetadataIff(bytes, marker, b, e, entryId);
    LineStands(bytes, b);
    LineStands(bytes, e);
    DamagedBy(bytes, o, p, bytes[o..BlockEnd(bytes, p)], marker, ls[b], ls[e]);
  }

  lemma {:induction false} DamagedBy(bytes: string, o: nat, p: nat, block: string, marker: string, first: string,
        last: string)
    requires o <= |bytes| && p <= |bytes| && bytes[o..LineEnd(bytes, o)] == first && bytes[p..LineEnd(bytes, p)] == last
    ensures !Damaged(bytes, o, p, block, marker) <==>
              && Exact(StripCr(first), StripCr(last), marker)
              && HasMetadataPrefix(block, ENTRY) && HasMetadataPrefix(block, SOURCE) && HasMetadataPrefix(block, HASH)
  {
    Spelled(marker);
  }

  lemma {:induction false} Spelled(marker: string)
    ensures BEGIN + marker + Created(true) == "# BEGIN " + marker + " (created-file: true)"
    ensures BEGIN + marker + Created(false) == "# BEGIN " + marker + " (created-file: false)"
  {
    assert Created(true) == " (created-file: true)" && Created(false) == " (created-file: false)";
  }

  /** The parse, when there is one BEGIN line and one END line. */
  lemma {:induction false} ParsedAtLines(bytes: string, marker: string, b: nat, e: nat, entryId: string)
    requires IsLine(marker)
    requires OnlyMarker(Split(bytes), BEGIN + marker, b) && OnlyMarker(Split(bytes), END + marker, e)
    ensures var ls, p := Split(bytes), Parsed(bytes, marker);
            && (p.conflict <==> !WholeBlock(ls, marker, b, e))
            && (!p.conflict ==> p.block.Some?)
            && (b < e ==> p.block.Some?)
            && (b < e ==> (HasMetadataLine(p.block.value, ENTRY + entryId) <==> NamesEntry(ls, b, e, entryId)))
  {
    var ls := Split(bytes);
    Needles(marker);
    OffsetsAreLines(bytes, BEGIN + marker);
    OffsetsAreLines(bytes, END + marker);
    if b < e {
      var o, p := DamagedIff(bytes, marker, b, e, entryId);
      ParsedIsCut(bytes, marker, o, p);
    } else {
      SpanGrows(ls, e, b);
    }
  }

  /** Over every file: the parse is a conflict exactly when there is a marker line of ours and not
      one whole block, and finds a block without conflict exactly when there is one. */
  lemma {:induction false} ConflictIff(bytes: string, marker: string)
    requires IsLine(marker)
    ensures var ls, p := Split(bytes), Parsed(bytes, marker);
            && (p.conflict <==> HasMarkers(ls, marker) && !HasBlock(ls, marker))
            && (p.block.Some? && !p.conflict <==> HasBlock(ls, marker))
  {
    var ls := Split(bytes);
    Needles(marker);
    OffsetsAreLines(bytes, BEGIN + marker);
    OffsetsAreLines(bytes, END + marker);
    if b: nat, e: nat :| OnlyMarker(ls, BEGIN + marker, b) && OnlyMarker(ls, END + marker, e) {
      ParsedAtLines(bytes, marker, b, e, "");
      assert IsMarker(ls[b], BEGIN + marker);
      forall i: nat, j: nat | WholeBlock(ls, marker, i, j) ensures i == b && j == e {
        assert IsMarker(ls[i], BEGIN + marker) && IsMarker(ls[j], END + marker);
      }
    } else {
      assert !HasBlock(ls, marker);
    }
  }

  /** A file that is neither without our markers nor one with a whole block of this entry. */
  ghost predicate IsRefused(ls: seq<string>, cfg: Config) {
    || (HasMarkers(ls, cfg.marker) && !HasBlock(ls, cfg.marker))
    || exists b: nat, e: nat :: WholeBlock(ls, cfg.marker, b, e) && !NamesEntry(ls, b, e, cfg.entryId)
  }

  lemma {:induction false} OneWholeBlock(ls: seq<string>, marker: string, b: nat, e: nat, i: nat, j: nat)
    requires WholeBlock(ls, marker, b, e) && WholeBlock(ls, marker, i, j)
    ensures i == b && j == e
  {
    assert IsMarker(ls[i], "# BEGIN " + marker) && IsMarker(ls[j], "# END " + marker);
  }

  lemma {:induction false} RefusedIff(cfg: Config, bytes: string)
    requires IsLine(cfg.marker)
    ensures Refused(Parsed(bytes, cfg.marker), cfg) <==> IsRefused(Split(bytes), cfg)
  {
    var ls := Split(bytes);
    ConflictIff(bytes, cfg.marker);
    if b: nat, e: nat :| WholeBlock(ls, cfg.marker, b, e) {
      ParsedAtLines(bytes, cfg.marker, b, e, cfg.entryId);
      forall i: nat, j: nat | WholeBlock(ls, cfg.marker, i, j) ensures i == b && j == e {
        OneWholeBlock(ls, cfg.marker, b, e, i, j);
      }
    }
  }

  /** Deploy and undeploy refuse exactly such a file; a file with markers that do not pair up is
      never rewritten. */
  lemma {:induction false} RefusesIff(cfg: Config, hash: string, bytes: string)
    requires IsLine(cfg.marker)
    ensures Deployed(cfg, hash, Some(bytes)) == Err(Conflict) <==> IsRefused(Split(bytes), cfg)
    ensures Undeployed(cfg, Some(bytes)) == Err(Conflict) <==> IsRefused(Split(bytes), cfg)
  {
    RefusedIff(cfg, bytes);
    DeployRefuses(cfg, hash, bytes);
  }

  lemma {:induction false} DeployRefuses(cfg: Config, hash: string, bytes: string)
    ensures Deployed(cfg, hash, Some(bytes)) == Err(Conflict) <==> Refused(Parsed(bytes, cfg.marker), cfg)
    ensures Undeployed(cfg, Some(bytes)) == Err(Conflict) <==> Refused(Parsed(bytes, cfg.marker), cfg)
  {
  }

  /** Blank is nothing but white space, and a line is read without the carriage return that ends it. */
  lemma {:induction false} BlankAndCarriageReturn(s: string)
    ensures Blank(s) <==> forall c <- s :: c in " \t\n\r\U{0B}\U{0C}"
    ensures StripCr(s + "\r") == s
    ensures (s == "" || s[|s| - 1] != '\r') ==> StripCr(s) == s
  {
    if forall c <- s :: c in " \t\n\r\U{0B}\U{0C}" {
      forall i | 0 <= i < |s| ensures IsSpace(s[i]) { assert s[i] in s; }
    }
  }

  // ---------------------------------------------------------------- what the block tells DSH

  predicate IsComment(line: string) { line != "" && line[0] == '#' }

  /** The lines that are no comments. */
  function Payload(ls: seq<string>): seq<string> {
    if ls == [] then [] else (if IsComment(ls[0]) then [] else [ls[0]]) + Payload(ls[1..])
  }

  /** To a reader of YAML the block is one insertion of the plugin, by its URL; the rest is comments. */
  lemma {:induction false} BlockInsertsThePlugin(cfg: Config, hash: string, created: bool)
    requires ValidConfig(cfg, hash)
    ensures Payload(WholeLines(Block(cfg, hash, created)))
         == ["- insert:", "  - id: 'loongsuite-pilot-observability'", "    name: " + cfg.url]
    ensures Tail(Block(cfg, hash, created)) == ""
  {
    BlockSplits(cfg, hash, created);
    CommentsAround(cfg, hash, created);
    EightLines(BlockLines(cfg, hash, created));
  }

  lemma {:induction false} CommentsAround(cfg: Config, hash: string, created: bool)
    ensures var ls := BlockLines(cfg, hash, created);
            && IsComment(ls[0]) && IsComment(ls[1]) && IsComment(ls[2]) && IsComment(ls[3]) && IsComment(ls[7])
            && !IsComment(ls[4]) && !IsComment(ls[5]) && !IsComment(ls[6])
  {
  }

  lemma {:induction false} EightLines(ls: seq<string>)
    requires |ls| == 8 && IsComment(ls[0]) && IsComment(ls[1]) && IsComment(ls[2]) && IsComment(ls[3])
    requires IsComment(ls[7])
    requires !IsComment(ls[4]) && !IsComment(ls[5]) && !IsComment(ls[6])
    ensures Payload(ls) == [ls[4], ls[5], ls[6]]
  {
    PayloadFrom(ls, 7);
    PayloadFrom(ls, 6);
    PayloadFrom(ls, 5);
    PayloadFrom(ls, 4);
    PayloadFrom(ls, 3);
    PayloadFrom(ls, 2);
    PayloadFrom(ls, 1);
    PayloadFrom(ls, 0);
    assert ls[8..] == [] && ls[0..] == ls;
  }

  lemma {:induction false} PayloadFrom(ls: seq<string>, k: nat)
    requires k < |ls|
    ensures Payload(ls[k..]) == (if IsComment(ls[k]) then [] else [ls[k]]) + Payload(ls[k + 1..])
  {
    assert ls[k..] == [ls[k]] + ls[k + 1..];
    PayloadCons(ls[k], ls[k + 1..]);
  }

  lemma {:induction false} PayloadCons(line: string, rest: seq<string>)
    ensures Payload([line] + rest) == (if IsComment(line) then [] else [line]) + Payload(rest)
  {
    assert ([line] + rest)[1..] == rest;
  }
}
