/** What deploys and undeploys do to the user's bytes over a whole run: the block is always found
    again with the same text before and after it, the created-file flag keeps its first value, and
    an undeploy gives back exactly what the user has. */
module PatchRoundTrip {
  import opened Wrappers
  import opened Seqs
  import opened Lines
  import opened PatchText
  import opened PatchBlock

  /** One line, without a carriage return. */
  predicate Plain(s: string) { forall i :: 0 <= i < |s| ==> s[i] != '\n' && s[i] != '\r' }

  predicate ValidConfig(cfg: Config, hash: string) {
    && Plain(cfg.marker) && Plain(cfg.entryId) && Plain(cfg.url) && Plain(hash)
    && cfg.entryId != "" && cfg.url != "" && hash != ""
    && forall i: nat :: i < |cfg.marker| ==> !OccursAt(cfg.marker, CREATED, i)
  }

  /** Text without marker lines. */
  predicate Clean(text: string, marker: string) {
    Offsets(text, BEGIN + marker, 0) == [] && Offsets(text, END + marker, 0) == []
  }

  /** What may stand around the block. */
  predicate Outside(before: string, after: string, marker: string) {
    Tail(before) == "" && Clean(before, marker) && Clean(after, marker)
  }

  // ---------------------------------------------------------------- the block as lines

  lemma {:induction false} PlainConcat(a: string, b: string)
    requires Plain(a) && Plain(b)
    ensures Plain(a + b)
  {
  }

  lemma {:induction false} LiteralsArePlain()
    ensures Plain(BEGIN) && Plain(END) && Plain(ENTRY) && Plain(SOURCE) && Plain(HASH)
    ensures Plain(INSERT) && Plain(ID) && Plain(NAME) && Plain(Created(true)) && Plain(Created(false))
  {
  }

  lemma {:induction false} FirstLineIsPlain(cfg: Config, created: bool)
    requires Plain(cfg.marker)
    ensures Plain(FirstLine(cfg, created))
  {
    LiteralsArePlain();
    PlainConcat(BEGIN, cfg.marker);
    PlainConcat(BEGIN + cfg.marker, Created(created));
  }

  lemma {:induction false} LinesArePlain(cfg: Config, hash: string, created: bool)
    requires ValidConfig(cfg, hash)
    ensures forall i :: 0 <= i < 8 ==> Plain(BlockLines(cfg, hash, created)[i])
  {
    FirstLineIsPlain(cfg, created);
    LiteralsArePlain();
    PlainConcat(ENTRY, cfg.entryId);
    PlainConcat(SOURCE, cfg.url);
    PlainConcat(HASH, hash);
    PlainConcat(NAME, cfg.url);
    PlainConcat(END, cfg.marker);
  }

  lemma {:induction false} BlockSplits(cfg: Config, hash: string, created: bool)
    requires ValidConfig(cfg, hash)
    ensures WholeLines(Block(cfg, hash, created)) == BlockLines(cfg, hash, created)
    ensures Tail(Block(cfg, hash, created)) == ""
  {
    var ls := BlockLines(cfg, hash, created);
    LinesArePlain(cfg, hash, created);
    SplitLines(ls);
  }

  lemma {:induction false} SplitLines(ls: seq<string>)
    requires forall i :: 0 <= i < |ls| ==> Plain(ls[i])
    ensures WholeLines(Join(ls + [""])) == ls && Tail(Join(ls + [""])) == ""
  {
    forall i | 0 <= i < |ls + [""]| ensures IsLine((ls + [""])[i]) {
      if i < |ls| { assert Plain(ls[i]); }
    }
    SplitJoin(ls + [""]);
  }

  lemma {:induction false} MarkerLines(cfg: Config, hash: string, created: bool, i: nat)
    requires i < 8
    ensures IsMarker(BlockLines(cfg, hash, created)[i], BEGIN + cfg.marker) <==> i == 0
    ensures IsMarker(BlockLines(cfg, hash, created)[i], END + cfg.marker) <==> i == 7
  {
    var line := BlockLines(cfg, hash, created)[i];
    var begin, end := BEGIN + cfg.marker, END + cfg.marker;
    assert begin[2] == 'B' && end[2] == 'E' && begin[0] == end[0] == '#';
    if i == 0 {
      assert line[..|begin|] == begin && line[|begin|] == FLAGGED[0];
      assert line[2] == begin[2];
    } else if i == 1 {
      assert line[2] == 'e';
    } else if i == 2 || i == 3 {
      assert line[2] == 'p';
    } else if i < 7 {
      assert line[0] != '#';
    }
  }

  lemma {:induction false} OneMarker(ls: seq<string>, needle: string, at: nat, base: nat)
    requires at < |ls| && forall i :: 0 <= i < |ls| ==> (IsMarker(ls[i], needle) <==> i == at)
    ensures LineOffsets(ls, needle, base) == [base + Span(ls[..at])]
    decreases |ls|
  {
    if at == 0 {
      NoMarker(ls[1..], needle, base + |ls[0]| + 1);
      assert ls[..0] == [];
    } else {
      OneMarker(ls[1..], needle, at - 1, base + |ls[0]| + 1);
      assert ls[..at] == [ls[0]] + ls[1..][..at - 1];
    }
  }

  lemma {:induction false} NoMarker(ls: seq<string>, needle: string, base: nat)
    requires forall i :: 0 <= i < |ls| ==> !IsMarker(ls[i], needle)
    ensures LineOffsets(ls, needle, base) == []
    decreases |ls|
  {
    if ls != [] { NoMarker(ls[1..], needle, base + |ls[0]| + 1); }
  }

  // ---------------------------------------------------------------- the block in the file

  function Content(cfg: Config, hash: string, created: bool, before: string, after: string): string {
    before + Block(cfg, hash, created) + after
  }

  /** In the file, the only marker line of a kind is the block's. */
  lemma {:induction false} MarkerInContent(all: string, before: string, after: string, b: seq<string>,
        k: seq<string>, needle: string, at: nat)
    requires IsLine(needle) && needle != ""
    requires Split(all) == b + k + Split(after) && Split(before) == b + [""] && Span(b) == |before|
    requires Offsets(before, needle, 0) == [] && Offsets(after, needle, 0) == []
    requires LineOffsets(k, needle, |before|) == [at]
    ensures Offsets(all, needle, 0) == [at]
  {
    CleanLines(before, b + [""], needle);
    CleanLines(after, Split(after), needle);
    OffsetsOfThree(b, k, Split(after), needle, at);
    FoundByLines(all, b + k + Split(after), needle, at);
  }

  lemma {:induction false} ContentSplits(cfg: Config, hash: string, created: bool, before: string, after: string)
    requires ValidConfig(cfg, hash) && Tail(before) == ""
    ensures var b := WholeLines(before);
            && Split(Content(cfg, hash, created, before, after)) == b + BlockLines(cfg, hash, created) + Split(after)
            && Split(before) == b + [""] && Span(b) == |before|
  {
    BlockSplits(cfg, hash, created);
    SplitThree(before, Block(cfg, hash, created), after);
    SpanWhole(before);
  }

  lemma {:induction false} CleanLines(text: string, ls: seq<string>, needle: string)
    requires IsLine(needle) && needle != "" && Offsets(text, needle, 0) == [] && Split(text) == ls
    ensures LineOffsets(ls, needle, 0) == []
  {
    OffsetsByLine(text, needle);
  }

  lemma {:induction false} FoundByLines(text: string, ls: seq<string>, needle: string, at: nat)
    requires IsLine(needle) && needle != "" && Split(text) == ls && LineOffsets(ls, needle, 0) == [at]
    ensures Offsets(text, needle, 0) == [at]
  {
    OffsetsByLine(text, needle);
  }

  lemma {:induction false} OffsetsOfThree(b: seq<string>, k: seq<string>, a: seq<string>, needle: string, at: nat)
    requires LineOffsets(b + [""], needle, 0) == [] && LineOffsets(a, needle, 0) == []
    requires LineOffsets(k, needle, Span(b)) == [at]
    ensures LineOffsets(b + k + a, needle, 0) == [at]
  {
    LineOffsetsAppend(b, [""], needle, 0);
    LineOffsetsAppend(b + k, a, needle, 0);
    LineOffsetsAppend(b, k, needle, 0);
    NoLineOffsets(a, needle, 0, Span(b + k));
  }

  lemma {:induction false} SplitThree(before: string, block: string, after: string)
    requires Tail(before) == "" && Tail(block) == ""
    ensures Split(before + block + after) == WholeLines(before) + WholeLines(block) + Split(after)
  {
    AppendToWhole(before, block);
    SplitConcat(before + block, after);
    GlueWhole(Split(before + block), Split(after));
  }

  /** The text up to the END line, and its length. */
  lemma {:induction false} BlockHead(cfg: Config, hash: string, created: bool) returns (head: string)
    requires ValidConfig(cfg, hash)
    ensures Block(cfg, hash, created) == head + (END + cfg.marker) + "\n"
    ensures |head| == Span(BlockLines(cfg, hash, created)[..7]) > 0
  {
    var ls := BlockLines(cfg, hash, created);
    var first := ls[..7];
    head := Join(first + [""]);
    LinesArePlain(cfg, hash, created);
    SplitLines(first);
    SpanWhole(head);
    JoinAppend(first, [ls[7], ""]);
    JoinAppend(first, [""]);
    assert ls + [""] == first + [ls[7], ""];
    assert [ls[7], ""][1..] == [""];
    assert Join([ls[7], ""]) == ls[7] + "\n" + "";
    assert Join(first) + "\n" + (ls[7] + "\n") == Join(first) + "\n" + "" + ls[7] + "\n";
  }

  lemma {:induction false} BlockBegins(cfg: Config, hash: string, created: bool) returns (rest: string)
    ensures Block(cfg, hash, created) == FirstLine(cfg, created) + "\n" + rest
  {
    var ls := BlockLines(cfg, hash, created) + [""];
    rest := Join(ls[1..]);
    assert ls[0] == FirstLine(cfg, created);
  }

  lemma {:induction false} NeedlesArePlain(marker: string)
    requires Plain(marker)
    ensures Plain(BEGIN + marker) && Plain(END + marker)
  {
    LiteralsArePlain();
    PlainConcat(BEGIN, marker);
    PlainConcat(END, marker);
  }

  lemma {:induction false} BlockMarkers(cfg: Config, hash: string, created: bool, base: nat)
    ensures LineOffsets(BlockLines(cfg, hash, created), BEGIN + cfg.marker, base) == [base]
    ensures LineOffsets(BlockLines(cfg, hash, created), END + cfg.marker, base)
         == [base + Span(BlockLines(cfg, hash, created)[..7])]
  {
    var ls := BlockLines(cfg, hash, created);
    forall i | 0 <= i < |ls|
      ensures IsMarker(ls[i], BEGIN + cfg.marker) <==> i == 0
      ensures IsMarker(ls[i], END + cfg.marker) <==> i == 7
    {
      MarkerLines(cfg, hash, created, i);
    }
    OneMarker(ls, BEGIN + cfg.marker, 0, base);
    OneMarker(ls, END + cfg.marker, 7, base);
    assert Span(ls[..0]) == 0;
  }

  lemma {:induction false} BeginInContent(cfg: Config, hash: string, created: bool, before: string, after: string)
    requires ValidConfig(cfg, hash) && Tail(before) == ""
    requires Offsets(before, BEGIN + cfg.marker, 0) == [] && Offsets(after, BEGIN + cfg.marker, 0) == []
    ensures Offsets(Content(cfg, hash, created, before, after), BEGIN + cfg.marker, 0) == [|before|]
  {
    var ls := BlockLines(cfg, hash, created);
    assert LineOffsets(ls, BEGIN + cfg.marker, |before|) == [|before|] by {
      BlockMarkers(cfg, hash, created, |before|);
    }
    NeedlesArePlain(cfg.marker);
    ContentSplits(cfg, hash, created, before, after);
    MarkerInContent(Content(cfg, hash, created, before, after), before, after, WholeLines(before), ls,
                    BEGIN + cfg.marker, |before|);
  }

  lemma {:induction false} EndInContent(cfg: Config, hash: string, created: bool, before: string, after: string, e: nat)
    requires ValidConfig(cfg, hash) && Tail(before) == ""
    requires Offsets(before, END + cfg.marker, 0) == [] && Offsets(after, END + cfg.marker, 0) == []
    requires e == |before| + Span(BlockLines(cfg, hash, created)[..7])
    ensures Offsets(Content(cfg, hash, created, before, after), END + cfg.marker, 0) == [e]
  {
    var ls := BlockLines(cfg, hash, created);
    assert LineOffsets(ls, END + cfg.marker, |before|) == [e] by { BlockMarkers(cfg, hash, created, |before|); }
    NeedlesArePlain(cfg.marker);
    ContentSplits(cfg, hash, created, before, after);
    MarkerInContent(Content(cfg, hash, created, before, after), before, after, WholeLines(before), ls,
                    END + cfg.marker, e);
  }

  /** A line that stands in the file. */
  lemma {:induction false} LineAt(bytes: string, before: string, line: string, rest: string)
    requires bytes == before + line + ("\n" + rest) && Plain(line)
    ensures LineEnd(bytes, |before|) == |before| + |line| < |bytes|
    ensures StripCr(bytes[|before|..|before| + |line|]) == line
  {
    CutAtBlock(bytes, before, line, "\n" + rest);
    BreakAt(bytes, |before| + |line|, rest);
    assert IsLine(line);
    LineEndIs(bytes, |before|, |before| + |line|);
    StripPlain(line);
  }

  lemma {:induction false} BreakAt(bytes: string, j: nat, rest: string)
    requires j <= |bytes| && bytes[j..] == "\n" + rest
    ensures j < |bytes| && bytes[j] == '\n'
  {
    assert bytes[j..][0] == '\n';
  }

  lemma {:induction false} StripPlain(s: string)
    requires Plain(s)
    ensures StripCr(s) == s
  {
  }

  lemma {:induction false} BlockMetadata(cfg: Config, hash: string, created: bool)
    requires ValidConfig(cfg, hash)
    ensures CrLines(Block(cfg, hash, created)) == BlockLines(cfg, hash, created) + [""]
  {
    BlockSplits(cfg, hash, created);
    LinesArePlain(cfg, hash, created);
    var ls := BlockLines(cfg, hash, created);
    forall i | 0 <= i < |ls| ensures StripCr(ls[i]) == ls[i] { StripPlain(ls[i]); }
    assert Map(StripCr, ls) == ls;
  }

  lemma {:induction false} BlockHasMetadata(cfg: Config, hash: string, created: bool)
    requires ValidConfig(cfg, hash)
    ensures var block := Block(cfg, hash, created);
            && HasMetadataPrefix(block, ENTRY) && HasMetadataPrefix(block, SOURCE) && HasMetadataPrefix(block, HASH)
            && HasMetadataLine(block, ENTRY + cfg.entryId) && HasMetadataLine(block, SOURCE + cfg.url)
            && HasMetadataLine(block, HASH + hash)
  {
    var block := Block(cfg, hash, created);
    BlockMetadata(cfg, hash, created);
    var ls := CrLines(block);
    assert ls[1] == ENTRY + cfg.entryId && ls[2] == SOURCE + cfg.url && ls[3] == HASH + hash;
    Extends(ls, 1, ENTRY);
    Extends(ls, 2, SOURCE);
    Extends(ls, 3, HASH);
  }

  lemma {:induction false} Extends(ls: seq<string>, i: nat, prefix: string)
    requires i < |ls| && prefix < ls[i]
    ensures SomeExtends(ls, prefix)
  {
    if i > 0 { Extends(ls[1..], i - 1, prefix); }
  }

  lemma {:induction false} BeginLine(cfg: Config, hash: string, created: bool, before: string, after: string)
    requires Plain(cfg.marker)
    ensures var bytes := Content(cfg, hash, created, before, after);
            StripCr(bytes[|before|..LineEnd(bytes, |before|)]) == FirstLine(cfg, created)
  {
    FirstLineIsPlain(cfg, created);
    var rest := BlockBegins(cfg, hash, created);
    BeginLineOf(FirstLine(cfg, created), before, Block(cfg, hash, created), rest, after);
  }

  lemma {:induction false} BeginLineOf(line: string, before: string, block: string, rest: string, after: string)
    requires Plain(line) && block == line + "\n" + rest
    ensures var bytes := before + block + after;
            StripCr(bytes[|before|..LineEnd(bytes, |before|)]) == line
  {
    Reassociate(before, line, rest, after);
    LineAt(before + block + after, before, line, rest + after);
  }

  lemma {:induction false} Reassociate(before: string, line: string, rest: string, after: string)
    ensures before + (line + "\n" + rest) + after == before + line + ("\n" + (rest + after))
  {
  }

  lemma {:induction false} BeginIsValid(cfg: Config, created: bool)
    ensures ValidBegin(FirstLine(cfg, created), cfg.marker)
  {
    if created {} else {}
  }

  lemma {:induction false} EndLine(cfg: Config, hash: string, created: bool, before: string,
        after: string) returns (e: nat)
    requires ValidConfig(cfg, hash)
    ensures var bytes := Content(cfg, hash, created, before, after);
            && e == |before| + Span(BlockLines(cfg, hash, created)[..7])
            && |before| < e < |bytes|
            && StripCr(bytes[e..LineEnd(bytes, e)]) == END + cfg.marker
            && BlockEnd(bytes, e) == |before| + |Block(cfg, hash, created)|
  {
    var bytes := Content(cfg, hash, created, before, after);
    var line := END + cfg.marker;
    assert Plain(line) by { LiteralsArePlain(); PlainConcat(END, cfg.marker); }
    var head := BlockHead(cfg, hash, created);
    e := |before + head|;
    ReassociateEnd(before, head, line, after);
    LineAt(bytes, before + head, line, after);
  }

  lemma {:induction false} ReassociateEnd(before: string, head: string, line: string, after: string)
    ensures before + (head + line + "\n") + after == (before + head) + line + ("\n" + after)
  {
  }

  /** Wherever the user's text stands, the block is found again, whole and sound. */
  lemma {:induction false} BlockIsFound(cfg: Config, hash: string, created: bool, before: string, after: string)
    requires ValidConfig(cfg, hash) && Outside(before, after, cfg.marker)
    ensures Parsed(Content(cfg, hash, created, before, after), cfg.marker)
         == Parse(before, Some(Block(cfg, hash, created)), after, false)
  {
    var bytes, block := Content(cfg, hash, created, before, after), Block(cfg, hash, created);
    var e := EndLine(cfg, hash, created, before, after);
    BeginLine(cfg, hash, created, before, after);
    BeginIsValid(cfg, created);
    BeginInContent(cfg, hash, created, before, after);
    EndInContent(cfg, hash, created, before, after, e);
    BlockHasMetadata(cfg, hash, created);
    ParsedIsCut(bytes, cfg.marker, |before|, e);
    CutAtBlock(bytes, before, block, after);
    CutWhole(bytes, cfg.marker, before, block, after, e);
  }

  lemma {:induction false} CutAtBlock(bytes: string, before: string, block: string, after: string)
    requires bytes == before + block + after
    ensures bytes[..|before|] == before && bytes[|before|..|before| + |block|] == block
    ensures bytes[|before| + |block|..] == after
  {
  }

  lemma {:induction false} CutWhole(bytes: string, marker: string, before: string, block: string, after: string, e: nat)
    requires |before| < e <= |bytes| && BlockEnd(bytes, e) == |before| + |block| <= |bytes|
    requires bytes[..|before|] == before && bytes[|before|..|before| + |block|] == block
    requires bytes[|before| + |block|..] == after
    requires ValidBegin(StripCr(bytes[|before|..LineEnd(bytes, |before|)]), marker)
    requires StripCr(bytes[e..LineEnd(bytes, e)]) == END + marker
    requires HasMetadataPrefix(block, ENTRY) && HasMetadataPrefix(block, SOURCE) && HasMetadataPrefix(block, HASH)
    ensures Cut(bytes, marker, |before|, e, BlockEnd(bytes, e)) == Parse(before, Some(block), after, false)
  {
    assert !Damaged(bytes, |before|, e, block, marker);
  }

  lemma {:induction false} ParsedIsCut(bytes: string, marker: string, b: nat, e: nat)
    requires Offsets(bytes, BEGIN + marker, 0) == [b] && Offsets(bytes, END + marker, 0) == [e] && b < e <= |bytes|
    ensures Parsed(bytes, marker) == Cut(bytes, marker, b, e, BlockEnd(bytes, e))
  {
  }

  // ---------------------------------------------------------------- the flag

  lemma {:induction false} FlagSkip(s: string, a: nat, b: nat)
    requires a <= b <= |s| && forall i :: a <= i < b ==> !OccursAt(s, CREATED, i)
    ensures FirstFlag(s, a) == FirstFlag(s, b)
    decreases b - a
  {
    if a < b {
      assert !OccursAt(s, CREATED, a);
      FlagSkip(s, a + 1, b);
    }
  }

  lemma {:induction false} FlagIsKept(cfg: Config, hash: string, created: bool)
    requires ValidConfig(cfg, hash)
    ensures FirstFlag(Block(cfg, hash, created), 0) == Some(created)
  {
    var block := Block(cfg, hash, created);
    var rest := BlockBegins(cfg, hash, created);
    var head := BEGIN + cfg.marker + " (";
    var value := if created then "true)" else "false)";
    FlagParts(cfg.marker, value, rest);
    forall i: nat | i < |head| ensures !OccursAt(block, CREATED, i) { NoFlagBefore(cfg, block, i); }
    FlagSkip(block, 0, |head|);
    FlagHere(block, head, value, "\n" + rest, created);
  }

  lemma {:induction false} FlagParts(marker: string, value: string, rest: string)
    ensures BEGIN + marker + (FLAGGED + value) + "\n" + rest
         == (BEGIN + marker + " (") + (CREATED + " " + value + ("\n" + rest))
  {
    assert FLAGGED == " (" + CREATED + " ";
    assert (BEGIN + marker + " (") + (CREATED + " " + value + ("\n" + rest))
        == BEGIN + marker + (" (" + CREATED + " " + value) + "\n" + rest;
  }

  lemma {:induction false} FlagHere(block: string, head: string, value: string, rest: string, created: bool)
    requires block == head + (CREATED + " " + value + rest) && value == if created then "true)" else "false)"
    ensures FlagAt(block, |head|) == Some(created) && |head| < |block|
  {
    var i, k := |head|, |head| + |CREATED|;
    assert block[i..k] == CREATED;
    assert block[k] == ' ' && block[k + 1] == value[0] && !IsSpace(value[0]);
    assert SkipSpace(block, k + 1) == k + 1;
    assert SkipSpace(block, k) == k + 1;
    if created {
      assert block[k + 1..k + 5] == "true";
    } else {
      assert block[k + 1..k + 6] == "false";
      assert block[k + 1..k + 5][0] == 'f';
    }
  }

  lemma {:induction false} NoFlagBefore(cfg: Config, block: string, i: nat)
    requires forall k: nat :: k < |cfg.marker| ==> !OccursAt(cfg.marker, CREATED, k)
    requires BEGIN + cfg.marker + " (" <= block && i < |BEGIN + cfg.marker + " ("|
    ensures !OccursAt(block, CREATED, i)
  {
    var q := |BEGIN + cfg.marker|;
    assert block[q] == ' ' && block[q + 1] == '(';
    if OccursAt(block, CREATED, i) {
      assert block[i] == block[i..i + |CREATED|][0] == 'c';
      if i < |BEGIN| {
        assert block[i] == BEGIN[i];
        NoC(i);
      } else if i + |CREATED| <= q {
        var k := i - |BEGIN|;
        assert cfg.marker[k..k + |CREATED|] == block[i..i + |CREATED|];
        assert OccursAt(cfg.marker, CREATED, k);
      } else if i <= q {
        assert block[q] == CREATED[q - i];
        NoBlank(q - i);
      }
    }
  }

  lemma {:induction false} NoC(i: nat)
    requires i < |BEGIN|
    ensures BEGIN[i] != 'c'
  {
  }

  lemma {:induction false} NoBlank(i: nat)
    requires i < |CREATED|
    ensures CREATED[i] != ' '
  {
  }

  // ---------------------------------------------------------------- one deploy

  lemma {:induction false} TailAfterBreak(s: string)
    ensures Split(s + "\n") == Split(s) + [""] && Tail(s + "\n") == ""
  {
    SplitAppend(s, "");
    assert s + "\n" + "" == s + "\n";
  }

  lemma {:induction false} CleanWithBreak(s: string, t: string, needle: string)
    requires IsLine(needle) && needle != "" && Offsets(s, needle, 0) == [] && Split(t) == Split(s) + [""]
    ensures Offsets(t, needle, 0) == []
  {
    CleanLines(s, Split(s), needle);
    EmptyLineIsClean(Split(s), needle);
    NoneByLines(t, Split(s) + [""], needle);
  }

  lemma {:induction false} EmptyLineIsClean(ls: seq<string>, needle: string)
    requires needle != "" && LineOffsets(ls, needle, 0) == []
    ensures LineOffsets(ls + [""], needle, 0) == []
  {
    LineOffsetsAppend(ls, [""], needle, 0);
    LineOffsetsCons("", [], needle, Span(ls));
  }

  lemma {:induction false} NoneByLines(text: string, ls: seq<string>, needle: string)
    requires IsLine(needle) && needle != "" && Split(text) == ls && LineOffsets(ls, needle, 0) == []
    ensures Offsets(text, needle, 0) == []
  {
    OffsetsByLine(text, needle);
  }

  /** The user's text, with the line break that the first deploy may add, may stand before a block. */
  lemma {:induction false} SeparatedIsOutside(bytes: string, marker: string)
    requires Clean(bytes, marker) && Plain(marker)
    ensures Outside(bytes + Separator(bytes), "", marker)
  {
    if Separator(bytes) == "\n" {
      TailAfterBreak(bytes);
      NeedlesArePlain(marker);
      CleanWithBreak(bytes, bytes + "\n", BEGIN + marker);
      CleanWithBreak(bytes, bytes + "\n", END + marker);
    } else {
      assert bytes + "" == bytes;
      if bytes != "" {
        var rest := bytes[..|bytes| - 1];
        assert bytes == rest + "\n";
        TailAfterBreak(rest);
      }
    }
  }

  /** The first deploy appends the block; the flag says whether the file was missing. */
  lemma {:induction false} FirstDeploy(cfg: Config, hash: string, file: Option<string>)
    requires Clean(file.GetOr(""), cfg.marker)
    ensures Deployed(cfg, hash, file)
         == Ok(Content(cfg, hash, file.None?, file.GetOr("") + Separator(file.GetOr("")), ""))
  {
    var bytes := file.GetOr("");
    assert Parsed(bytes, cfg.marker) == Parse(bytes, None, "", false);
    assert bytes + Separator(bytes) + Block(cfg, hash, file.None?) + ""
        == bytes + Separator(bytes) + Block(cfg, hash, file.None?);
  }

  /** Deploying over a block, with whatever URL and hash, replaces it and keeps its flag. */
  lemma {:induction false} Redeploy(cfg: Config, hash: string, url: string, newHash: string, created: bool,
        before: string, after: string)
    requires ValidConfig(cfg, hash) && ValidConfig(cfg.(url := url), newHash) && Outside(before, after, cfg.marker)
    ensures Deployed(cfg.(url := url), newHash, Some(Content(cfg, hash, created, before, after)))
         == Ok(Content(cfg.(url := url), newHash, created, before, after))
  {
    BlockIsFound(cfg, hash, created, before, after);
    assert HasMetadataLine(Block(cfg, hash, created), ENTRY + cfg.entryId) by { BlockHasMetadata(cfg, hash, created); }
    FlagIsKept(cfg, hash, created);
  }

  /** After a deploy the health check passes, and deploying again changes nothing. */
  lemma {:induction false} DeployIsCurrent(cfg: Config, hash: string, file: Option<string>)
    requires ValidConfig(cfg, hash) && Clean(file.GetOr(""), cfg.marker)
    ensures var deployed := Deployed(cfg, hash, file);
            && deployed.Ok?
            && IsCurrent(cfg, hash, deployed.value)
            && Deployed(cfg, hash, Some(deployed.value)) == deployed
  {
    var before := file.GetOr("") + Separator(file.GetOr(""));
    SeparatedIsOutside(file.GetOr(""), cfg.marker);
    FirstDeploy(cfg, hash, file);
    BlockIsFound(cfg, hash, file.None?, before, "");
    BlockHasMetadata(cfg, hash, file.None?);
    Redeploy(cfg, hash, cfg.url, hash, file.None?, before, "");
  }

  lemma {:induction false} UndeployBlock(cfg: Config, hash: string, created: bool, before: string, after: string)
    requires ValidConfig(cfg, hash) && Outside(before, after, cfg.marker)
    ensures Undeployed(cfg, Some(Content(cfg, hash, created, before, after)))
         == Ok(if created && Blank(before + after) then None else Some(before + after))
  {
    BlockIsFound(cfg, hash, created, before, after);
    assert HasMetadataLine(Block(cfg, hash, created), ENTRY + cfg.entryId) by { BlockHasMetadata(cfg, hash, created); }
    FlagIsKept(cfg, hash, created);
  }

  // ---------------------------------------------------------------- whole runs

  /** A deploy of another plugin build, or the user rewriting all the text around the block. */
  datatype Step = Update(url: string, hash: string) | Rewrite(before: string, after: string)

  predicate ValidStep(cfg: Config, s: Step) {
    match s
    case Update(url, hash) => ValidConfig(cfg.(url := url), hash)
    case Rewrite(before, after) => Outside(before, after, cfg.marker)
  }

  function After(cfg: Config, bytes: string, s: Step): Result<string, Error> {
    match s
    case Update(url, hash) => Deployed(cfg.(url := url), hash, Some(bytes))
    case Rewrite(before, after) => Ok(before + Parsed(bytes, cfg.marker).block.GetOr("") + after)
  }

  /** The steps one after the other, until one is refused. */
  function RunOf(after: (string, Step) -> Result<string, Error>, bytes: string, steps: seq<Step>): Result<string, Error>
    decreases |steps|
  {
    if steps == [] then Ok(bytes)
    else
      var r := after(bytes, steps[0]);
      if r.Err? then r else RunOf(after, r.value, steps[1..])
  }

  function Run(cfg: Config, bytes: string, steps: seq<Step>): Result<string, Error> {
    RunOf((b, s) => After(cfg, b, s), bytes, steps)
  }

  /** The user's text around the block, as the user alone knows it. */
  datatype User = User(before: string, after: string)

  function UserStep(u: User, s: Step): User {
    if s.Rewrite? then User(s.before, s.after) else u
  }

  function UserAfter(u: User, steps: seq<Step>): User
    decreases |steps|
  {
    if steps == [] then u else UserAfter(UserStep(u, steps[0]), steps[1..])
  }

  predicate AllValid(cfg: Config, steps: seq<Step>) { forall i :: 0 <= i < |steps| ==> ValidStep(cfg, steps[i]) }

  /** The file is the user's text with one block of ours, flagged `created`. */
  ghost predicate Managed(cfg: Config, bytes: string, u: User, created: bool) {
    && Outside(u.before, u.after, cfg.marker)
    && exists url, hash :: IsContent(cfg, bytes, u, created, url, hash)
  }

  predicate IsContent(cfg: Config, bytes: string, u: User, created: bool, url: string, hash: string) {
    ValidConfig(cfg.(url := url), hash) && bytes == Content(cfg.(url := url), hash, created, u.before, u.after)
  }

  lemma {:induction false} UpdateKeeps(cfg: Config, bytes: string, u: User, created: bool, newUrl: string,
        newHash: string)
    requires Managed(cfg, bytes, u, created) && ValidConfig(cfg.(url := newUrl), newHash)
    ensures var r := Deployed(cfg.(url := newUrl), newHash, Some(bytes)); r.Ok? && Managed(cfg, r.value, u, created)
  {
    var url, hash :| IsContent(cfg, bytes, u, created, url, hash);
    var now := cfg.(url := url);
    assert now.(url := newUrl) == cfg.(url := newUrl);
    Redeploy(now, hash, newUrl, newHash, created, u.before, u.after);
    assert IsContent(cfg, Content(cfg.(url := newUrl), newHash, created, u.before, u.after), u, created, newUrl, newHash);
  }

  lemma {:induction false} RewriteKeeps(cfg: Config, bytes: string, u: User, created: bool, v: User)
    requires Managed(cfg, bytes, u, created) && Outside(v.before, v.after, cfg.marker)
    ensures Managed(cfg, v.before + Parsed(bytes, cfg.marker).block.GetOr("") + v.after, v, created)
  {
    var url, hash :| IsContent(cfg, bytes, u, created, url, hash);
    var now := cfg.(url := url);
    BlockIsFound(now, hash, created, u.before, u.after);
    assert IsContent(cfg, Content(now, hash, created, v.before, v.after), v, created, url, hash);
  }

  lemma {:induction false} StepKeeps(cfg: Config, bytes: string, u: User, created: bool, s: Step)
    requires Managed(cfg, bytes, u, created) && ValidStep(cfg, s)
    ensures After(cfg, bytes, s).Ok? && Managed(cfg, After(cfg, bytes, s).value, UserStep(u, s), created)
  {
    match s
    case Update(url, hash) => UpdateKeeps(cfg, bytes, u, created, url, hash);
    case Rewrite(before, after) => RewriteKeeps(cfg, bytes, u, created, User(before, after));
  }

  ghost predicate Kept(keeps: (string, User) -> bool, r: Result<string, Error>, u: User) {
    r.Ok? && keeps(r.value, u)
  }

  lemma {:induction false} RunKeeps(after: (string, Step) -> Result<string, Error>, keeps: (string, User) -> bool,
                                    valid: Step -> bool, bytes: string, u: User, steps: seq<Step>)
    requires forall b, v, s :: keeps(b, v) && valid(s) ==> Kept(keeps, after(b, s), UserStep(v, s))
    requires keeps(bytes, u) && forall i :: 0 <= i < |steps| ==> valid(steps[i])
    ensures Kept(keeps, RunOf(after, bytes, steps), UserAfter(u, steps))
    decreases |steps|
  {
    if steps != [] {
      var r := after(bytes, steps[0]);
      assert valid(steps[0]) && Kept(keeps, r, UserStep(u, steps[0]));
      RunKeeps(after, keeps, valid, r.value, UserStep(u, steps[0]), steps[1..]);
    }
  }

  lemma {:induction false} RunStaysManaged(cfg: Config, bytes: string, u: User, created: bool, steps: seq<Step>)
    requires Managed(cfg, bytes, u, created) && AllValid(cfg, steps)
    ensures Run(cfg, bytes, steps).Ok? && Managed(cfg, Run(cfg, bytes, steps).value, UserAfter(u, steps), created)
  {
    var after := (b, s) => After(cfg, b, s);
    ghost var keeps := (b, v) => Managed(cfg, b, v, created);
    var valid := s => ValidStep(cfg, s);
    forall b, v, s | keeps(b, v) && valid(s) ensures Kept(keeps, after(b, s), UserStep(v, s)) {
      StepKeeps(cfg, b, v, created, s);
    }
    RunKeeps(after, keeps, valid, bytes, u, steps);
  }

  /** Deploy, then any run of redeploys and of edits around the block, then undeploy: no step is
      refused, and what is left is exactly the user's text, with at most the line break of the first
      deploy added. The file is deleted if and only if it was missing before the first deploy and
      only whitespace is left. */
  lemma {:induction false} UndeployGivesBackTheUsersText(cfg: Config, hash: string, file: Option<string>,
        steps: seq<Step>)
    requires ValidConfig(cfg, hash) && Clean(file.GetOr(""), cfg.marker) && AllValid(cfg, steps)
    ensures var original := file.GetOr("");
            var first := Deployed(cfg, hash, file);
            && first.Ok?
            && Run(cfg, first.value, steps).Ok?
            && var u := UserAfter(User(original + Separator(original), ""), steps);
               Undeployed(cfg, Some(Run(cfg, first.value, steps).value))
                 == Ok(if file.None? && Blank(u.before + u.after) then None else Some(u.before + u.after))
  {
    var original := file.GetOr("");
    var u := User(original + Separator(original), "");
    SeparatedIsOutside(original, cfg.marker);
    FirstDeploy(cfg, hash, file);
    var first := Deployed(cfg, hash, file).value;
    assert cfg.(url := cfg.url) == cfg;
    assert IsContent(cfg, first, u, file.None?, cfg.url, hash);
    RunStaysManaged(cfg, first, u, file.None?, steps);
    ManagedUndeploy(cfg, Run(cfg, first, steps).value, UserAfter(u, steps), file.None?);
  }

  lemma {:induction false} ManagedUndeploy(cfg: Config, bytes: string, u: User, created: bool)
    requires Managed(cfg, bytes, u, created)
    ensures Undeployed(cfg, Some(bytes))
         == Ok(if created && Blank(u.before + u.after) then None else Some(u.before + u.after))
  {
    var url, hash :| IsContent(cfg, bytes, u, created, url, hash);
    UndeployBlock(cfg.(url := url), hash, created, u.before, u.after);
    assert Undeployed(cfg, Some(bytes)) == Undeployed(cfg.(url := url), Some(bytes));
  }
}
