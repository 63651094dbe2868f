/** Marker-delimited blocks in shell rc files: stripping one, extracting one, and the
    check / repair / cleanup closures built on them. */
module MarkerBlock {
  import opened Wrappers
  import opened Seqs
  import opened Lines

  const MARKER_BEGIN_PREFIX: string := "loongsuite-pilot BEGIN "

  predicate Contains(s: string, pat: string) {
    exists i :: 0 <= i <= |s| && OccursAt(s, pat, i)
  }

  lemma {:induction false} ContainsStep(s: string, pat: string)
    ensures Contains(s, pat) <==> pat <= s || (s != "" && Contains(s[1..], pat))
  {
    assert s[0..] == s;
    if pat <= s { assert OccursAt(s, pat, 0); }
    if s != "" && Contains(s[1..], pat) {
      var i :| 0 <= i <= |s[1..]| && OccursAt(s[1..], pat, i);
      assert s[i + 1..] == s[1..][i..] && OccursAt(s, pat, i + 1);
    }
    if Contains(s, pat) && !(pat <= s) {
      var i :| 0 <= i <= |s| && OccursAt(s, pat, i);
      assert s[1..][i - 1..] == s[i..] && OccursAt(s[1..], pat, i - 1);
    }
  }

  predicate StartsAnotherBlock(line: string, begin: string) {
    Contains(line, MARKER_BEGIN_PREFIX) && !Contains(line, begin)
  }

  // ---------------------------------------------------------------- strip

  /** Whether a line read inside a block (or outside it) leaves the reader inside. */
  predicate InsideAfter(line: string, begin: string, end: string, inBlock: bool) {
    if inBlock then !Contains(line, end) && !StartsAnotherBlock(line, begin) else Contains(line, begin)
  }

  predicate Keeps(line: string, begin: string, end: string, inBlock: bool) {
    if inBlock then !Contains(line, end) && StartsAnotherBlock(line, begin) else !Contains(line, begin)
  }

  function Strip(ls: seq<string>, begin: string, end: string, inBlock: bool): seq<string> {
    if ls == [] then []
    else
      (if Keeps(ls[0], begin, end, inBlock) then [ls[0]] else [])
      + Strip(ls[1..], begin, end, InsideAfter(ls[0], begin, end, inBlock))
  }

  function Stripped(content: string, begin: string, end: string): string {
    Join(Strip(Split(content), begin, end, false))
  }

  method StripMarkerBlock(content: string, begin: string, end: string) returns (r: string)
    ensures r == Stripped(content, begin, end)
  {
    var ls := Split(content);
    var out := [];
    var inBlock := false;
    for k := 0 to |ls|
      invariant out + Strip(ls[k..], begin, end, inBlock) == Strip(ls, begin, end, false)
    {
      var line := ls[k];
      assert ls[k..][0] == line && ls[k..][1..] == ls[k + 1..];
      if !inBlock {
        if Contains(line, begin) { inBlock := true; } else { out := out + [line]; }
      } else if Contains(line, end) {
        inBlock := false;
      } else if StartsAnotherBlock(line, begin) {
        inBlock := false;
        out := out + [line];
      }
    }
    assert ls[|ls|..] == [] && out + [] == out;
    r := Join(out);
  }

  // ---------------------------------------------------------------- extract

  datatype Block = Block(text: string, terminated: bool)

  /** Where a block that opened above line `i` stops, and whether its END marker stopped it. */
  function Stop(ls: seq<string>, begin: string, end: string, i: nat): (r: (nat, bool))
    requires i <= |ls|
    ensures i <= r.0 <= |ls|
    decreases |ls| - i
  {
    if i == |ls| then (i, false)
    else if Contains(ls[i], end) then (i + 1, true)
    else if StartsAnotherBlock(ls[i], begin) then (i, false)
    else Stop(ls, begin, end, i + 1)
  }

  function FirstWith(ls: seq<string>, pat: string): (i: nat)
    ensures i <= |ls| && (i < |ls| ==> Contains(ls[i], pat)) && forall j :: 0 <= j < i ==> !Contains(ls[j], pat)
  {
    if ls == [] || Contains(ls[0], pat) then 0
    else
      var rest := FirstWith(ls[1..], pat);
      assert forall j :: 1 <= j < rest + 1 ==> ls[j] == ls[1..][j - 1];
      rest + 1
  }

  function ExtractLines(ls: seq<string>, begin: string, end: string): Option<Block> {
    var start := FirstWith(ls, begin);
    if start == |ls| then None
    else
      var (stop, terminated) := Stop(ls, begin, end, start + 1);
      Some(Block(Join(ls[start..stop]), terminated))
  }

  function Extract(content: string, begin: string, end: string): Option<Block> {
    ExtractLines(Split(content), begin, end)
  }

  method ExtractMarkerBlock(content: string, begin: string, end: string) returns (r: Option<Block>)
    ensures r == Extract(content, begin, end)
  {
    var ls := Split(content);
    var start := 0;
    while start < |ls| && !Contains(ls[start], begin)
      invariant start <= |ls| && forall j :: 0 <= j < start ==> !Contains(ls[j], begin)
    {
      start := start + 1;
    }
    assert start == FirstWith(ls, begin);
    if start == |ls| { return None; }
    var i := start + 1;
    while i < |ls|
      invariant start < i <= |ls| && Stop(ls, begin, end, start + 1) == Stop(ls, begin, end, i)
    {
      if Contains(ls[i], end) { return Some(Block(Join(ls[start..i + 1]), true)); }
      if StartsAnotherBlock(ls[i], begin) { return Some(Block(Join(ls[start..i]), false)); }
      i := i + 1;
    }
    assert ls[start..] == ls[start..i];
    r := Some(Block(Join(ls[start..]), false));
  }

  // ---------------------------------------------------------------- what stripping keeps

  lemma {:induction false} StripHasNoBegin(ls: seq<string>, begin: string, end: string, inBlock: bool)
    ensures forall k :: 0 <= k < |Strip(ls, begin, end, inBlock)| ==> !Contains(Strip(ls, begin, end, inBlock)[k], begin)
  {
    if ls != [] { StripHasNoBegin(ls[1..], begin, end, InsideAfter(ls[0], begin, end, inBlock)); }
  }

  lemma {:induction false} StripWithoutBegin(ls: seq<string>, begin: string, end: string)
    requires forall k :: 0 <= k < |ls| ==> !Contains(ls[k], begin)
    ensures Strip(ls, begin, end, false) == ls
  {
    if ls != [] { StripWithoutBegin(ls[1..], begin, end); }
  }

  ghost predicate Subsequence(xs: seq<string>, ys: seq<string>)
    decreases |ys|
  {
    xs == [] || (ys != [] && if xs[0] == ys[0] then Subsequence(xs[1..], ys[1..]) else Subsequence(xs, ys[1..]))
  }

  lemma {:induction false} StripIsSubsequence(ls: seq<string>, begin: string, end: string, inBlock: bool)
    ensures Subsequence(Strip(ls, begin, end, inBlock), ls)
  {
    if ls != [] {
      var rest := Strip(ls[1..], begin, end, InsideAfter(ls[0], begin, end, inBlock));
      StripIsSubsequence(ls[1..], begin, end, InsideAfter(ls[0], begin, end, inBlock));
      if Keeps(ls[0], begin, end, inBlock) {
        assert ([ls[0]] + rest)[1..] == rest;
      } else {
        assert Strip(ls, begin, end, inBlock) == rest;
        SubsequenceSkip(rest, ls);
      }
    }
  }

  /** Dropping a line never breaks a subsequence, even when the line could have been used. */
  lemma {:induction false} SubsequenceSkip(xs: seq<string>, ys: seq<string>)
    requires ys != [] && Subsequence(xs, ys[1..])
    ensures Subsequence(xs, ys)
    decreases |ys|, 0
  {
    if xs != [] && xs[0] == ys[0] { SubsequenceTail(xs, ys[1..]); }
  }

  lemma {:induction false} SubsequenceTail(xs: seq<string>, ys: seq<string>)
    requires xs != [] && Subsequence(xs, ys)
    ensures Subsequence(xs[1..], ys)
    decreases |ys|, 1
  {
    if xs[0] == ys[0] { SubsequenceSkip(xs[1..], ys); } else { SubsequenceTail(xs, ys[1..]); SubsequenceSkip(xs[1..], ys); }
  }

  /** The lines that open other blocks and do not also close this one. */
  function OtherBegins(ls: seq<string>, begin: string, end: string): seq<string> {
    if ls == [] then []
    else (if StartsAnotherBlock(ls[0], begin) && !Contains(ls[0], end) then [ls[0]] else []) + OtherBegins(ls[1..], begin, end)
  }

  lemma {:induction false} StripKeepsOtherBegins(ls: seq<string>, begin: string, end: string, inBlock: bool)
    ensures OtherBegins(Strip(ls, begin, end, inBlock), begin, end) == OtherBegins(ls, begin, end)
  {
    if ls != [] {
      var rest := Strip(ls[1..], begin, end, InsideAfter(ls[0], begin, end, inBlock));
      StripKeepsOtherBegins(ls[1..], begin, end, InsideAfter(ls[0], begin, end, inBlock));
      if Keeps(ls[0], begin, end, inBlock) {
        assert Strip(ls, begin, end, inBlock) == [ls[0]] + rest && ([ls[0]] + rest)[1..] == rest;
      } else {
        assert Strip(ls, begin, end, inBlock) == rest;
      }
    }
  }

  lemma {:induction false} StripAreLines(ls: seq<string>, begin: string, end: string, inBlock: bool)
    requires AreLines(ls)
    ensures AreLines(Strip(ls, begin, end, inBlock))
  {
    if ls != [] { StripAreLines(ls[1..], begin, end, InsideAfter(ls[0], begin, end, inBlock)); }
  }

  /** The lines of the stripped text; a text whose every line is cut is one empty line. */
  lemma {:induction false} StrippedLines(content: string, begin: string, end: string)
    ensures var kept := Strip(Split(content), begin, end, false);
            Split(Stripped(content, begin, end)) == if kept == [] then [""] else kept
  {
    StripAreLines(Split(content), begin, end, false);
    var kept := Strip(Split(content), begin, end, false);
    if kept != [] { SplitJoin(kept); }
  }

  /** For any content, stripping leaves a subsequence of the lines, without this block's BEGIN
      line, with every other block's, and stripping again changes nothing. */
  lemma {:induction false} StripProperties(content: string, begin: string, end: string)
    requires begin != ""
    ensures var kept := Strip(Split(content), begin, end, false);
            && Subsequence(kept, Split(content))
            && (forall k :: 0 <= k < |kept| ==> !Contains(kept[k], begin))
            && OtherBegins(kept, begin, end) == OtherBegins(Split(content), begin, end)
            && Stripped(Stripped(content, begin, end), begin, end) == Stripped(content, begin, end)
  {
    var ls := Split(content);
    StripIsSubsequence(ls, begin, end, false);
    StripHasNoBegin(ls, begin, end, false);
    StripKeepsOtherBegins(ls, begin, end, false);
    StrippedLines(content, begin, end);
    var now := Split(Stripped(content, begin, end));
    StripWithoutBegin(now, begin, end);
    JoinSplit(Stripped(content, begin, end));
  }

  // ---------------------------------------------------------------- which lines go

  /** A line at which a block of ours is over: its END, or the BEGIN of another block. */
  predicate Closes(line: string, begin: string, end: string) {
    Contains(line, end) || (Contains(line, MARKER_BEGIN_PREFIX) && !Contains(line, begin))
  }

  /** Line `b` is a BEGIN of ours, and no line from there to `k` closes it. */
  predicate OpenFrom(ls: seq<string>, begin: string, end: string, b: nat, k: nat)
    requires b < k <= |ls|
  {
    Contains(ls[b], begin) && forall m :: b < m < k ==> !Closes(ls[m], begin, end)
  }

  predicate OpenAbove(ls: seq<string>, begin: string, end: string, k: nat)
    requires k <= |ls|
  {
    exists b :: 0 <= b < k && OpenFrom(ls, begin, end, b, k)
  }

  /** Line `k` is of a block of ours: its BEGIN, or a line under one that is open, except that the
      BEGIN of another block is not ours unless it is our END as well. */
  predicate IsOurs(ls: seq<string>, begin: string, end: string, k: nat)
    requires k < |ls|
  {
    || Contains(ls[k], begin)
    || (OpenAbove(ls, begin, end, k)
        && !(Contains(ls[k], MARKER_BEGIN_PREFIX) && !Contains(ls[k], begin) && !Contains(ls[k], end)))
  }

  /** The lines from `k` on that are not of our blocks. */
  function NotOurs(ls: seq<string>, begin: string, end: string, k: nat): seq<string>
    requires k <= |ls|
    decreases |ls| - k
  {
    if k == |ls| then [] else (if IsOurs(ls, begin, end, k) then [] else [ls[k]]) + NotOurs(ls, begin, end, k + 1)
  }

  predicate NeverBoth(ls: seq<string>, begin: string, end: string) {
    forall k :: 0 <= k < |ls| ==> !(Contains(ls[k], begin) && Contains(ls[k], end))
  }

  lemma {:induction false} OpenBelow(ls: seq<string>, begin: string, end: string, k: nat)
    requires k < |ls| && NeverBoth(ls, begin, end)
    ensures OpenAbove(ls, begin, end, k + 1) == InsideAfter(ls[k], begin, end, OpenAbove(ls, begin, end, k))
  {
    if OpenAbove(ls, begin, end, k) && !Closes(ls[k], begin, end) {
      var b :| 0 <= b < k && OpenFrom(ls, begin, end, b, k);
      assert OpenFrom(ls, begin, end, b, k + 1);
    }
    if Contains(ls[k], begin) { assert OpenFrom(ls, begin, end, k, k + 1); }
    if OpenAbove(ls, begin, end, k + 1) {
      var b :| 0 <= b < k + 1 && OpenFrom(ls, begin, end, b, k + 1);
      if b < k { assert !Closes(ls[k], begin, end) && OpenFrom(ls, begin, end, b, k); }
    }
  }

  lemma {:induction false} StripFrom(ls: seq<string>, begin: string, end: string, k: nat)
    requires k <= |ls| && NeverBoth(ls, begin, end)
    ensures Strip(ls[k..], begin, end, OpenAbove(ls, begin, end, k)) == NotOurs(ls, begin, end, k)
    decreases |ls| - k
  {
    if k < |ls| {
      assert ls[k..][0] == ls[k] && ls[k..][1..] == ls[k + 1..];
      OpenBelow(ls, begin, end, k);
      StripFrom(ls, begin, end, k + 1);
    }
  }

  /** Stripping drops the lines of our blocks and no other, wherever no line carries both markers
      of the block. */
  lemma {:induction false} StripDropsOurBlocks(ls: seq<string>, begin: string, end: string)
    requires NeverBoth(ls, begin, end)
    ensures Strip(ls, begin, end, false) == NotOurs(ls, begin, end, 0)
  {
    assert ls[0..] == ls && !OpenAbove(ls, begin, end, 0);
    StripFrom(ls, begin, end, 0);
  }

  // ---------------------------------------------------------------- check, repair, cleanup

  /** One block definition with the text `blockFn(scriptPath)`. */
  datatype RcBlock = RcBlock(marker: string, endMarker: string, signature: string, block: string)

  predicate Current(b: Block, rc: RcBlock) { b.terminated && Contains(b.text, rc.signature) }

  /** `replace(/\n+$/, '\n')`. */
  function CollapseEnd(s: string): string {
    if |s| >= 2 && s[|s| - 1] == '\n' && s[|s| - 2] == '\n' then CollapseEnd(s[..|s| - 1]) else s
  }

  function Repaired(content: string, rc: RcBlock): string {
    match Extract(content, rc.marker, rc.endMarker)
    case None => content + rc.block + "\n"
    case Some(b) =>
      if Current(b, rc) then content
      else CollapseEnd(Stripped(content, rc.marker, rc.endMarker)) + rc.block + "\n"
  }

  /** rc files that do not exist are `None`. */
  predicate Damaged(file: Option<string>, rc: RcBlock) {
    && file.Some?
    && Extract(file.value, rc.marker, rc.endMarker).Some?
    && !Current(Extract(file.value, rc.marker, rc.endMarker).value, rc)
  }

  predicate Holds(file: Option<string>, rc: RcBlock) {
    && file.Some?
    && Extract(file.value, rc.marker, rc.endMarker).Some?
    && Current(Extract(file.value, rc.marker, rc.endMarker).value, rc)
  }

  /** No file is damaged, and some file holds the block unless there is no rc file at all. */
  ghost predicate Healthy(files: seq<Option<string>>, rc: RcBlock) {
    && (forall k :: 0 <= k < |files| ==> !Damaged(files[k], rc))
    && ((exists k :: 0 <= k < |files| && Holds(files[k], rc)) || (forall k :: 0 <= k < |files| ==> files[k].None?))
  }

  method Check(files: array<Option<string>>, rc: RcBlock) returns (healthy: bool)
    ensures healthy <==> Healthy(files[..], rc)
  {
    var anyCurrent, anyRcExists := false, false;
    for k := 0 to files.Length
      invariant forall j :: 0 <= j < k ==> !Damaged(files[j], rc)
      invariant anyCurrent <==> exists j :: 0 <= j < k && Holds(files[j], rc)
      invariant anyRcExists <==> exists j :: 0 <= j < k && files[j].Some?
    {
      if files[k].None? { continue; }
      anyRcExists := true;
      var block := ExtractMarkerBlock(files[k].value, rc.marker, rc.endMarker);
      if block.Some? {
        if !block.value.terminated {
          assert Damaged(files[..][k], rc);
          return false;
        }
        if Contains(block.value.text, rc.signature) {
          anyCurrent := true;
        } else {
          assert Damaged(files[..][k], rc);
          return false;
        }
      }
    }
    if anyCurrent {
      var j :| 0 <= j < files.Length && Holds(files[j], rc);
      assert Holds(files[..][j], rc);
      return true;
    }
    if anyRcExists {
      var j :| 0 <= j < files.Length && files[j].Some?;
      assert files[..][j].Some?;
    }
    healthy := !anyRcExists;
  }

  method Repair(files: array<Option<string>>, rc: RcBlock)
    modifies files
    ensures forall k :: 0 <= k < files.Length ==>
              files[k] == if old(files[k]).None? then None else Some(Repaired(old(files[k]).value, rc))
  {
    for k := 0 to files.Length
      invariant forall j :: 0 <= j < k ==>
              files[j] == if old(files[j]).None? then None else Some(Repaired(old(files[j]).value, rc))
      invariant forall j :: k <= j < files.Length ==> files[j] == old(files[j])
    {
      if files[k].None? { continue; }
      var content := files[k].value;
      var block := ExtractMarkerBlock(content, rc.marker, rc.endMarker);
      if block.Some? {
        if Current(block.value, rc) { continue; }
        var stripped := StripMarkerBlock(content, rc.marker, rc.endMarker);
        files[k] := Some(CollapseEnd(stripped) + rc.block + "\n");
      } else {
        files[k] := Some(content + rc.block + "\n");
      }
    }
  }

  // ---------------------------------------------------------------- repair reaches health

  /** The shape of every block definition: a blank line, the BEGIN line, a body that neither
      closes the block nor opens another, and the END line; the signature is inside. */
  ghost predicate WellFormed(rc: RcBlock) {
    var ls := Split(rc.block);
    && rc.marker != "" && rc.endMarker != ""
    && ls[0] == "" && WholeBlock(ls[1..], rc.marker, rc.endMarker)
    && Contains(Join(ls[1..]), rc.signature)
  }

  /** A BEGIN line, a body that neither closes the block nor opens another, and the END line. */
  ghost predicate WholeBlock(body: seq<string>, begin: string, end: string) {
    && |body| >= 2 && Contains(body[0], begin) && Contains(body[|body| - 1], end)
    && forall k :: 1 <= k < |body| - 1 ==> !Contains(body[k], end) && !StartsAnotherBlock(body[k], begin)
  }

  lemma {:induction false} AppendBlockLines(head: string, rc: RcBlock)
    requires WellFormed(rc)
    ensures Split(head + rc.block + "\n") == Split(head) + Split(rc.block)[1..] + [""]
  {
    var bl := Split(rc.block);
    AfterBlankLine(rc.block, bl[1..]);
    AppendLines(head, rc.block, bl[1..]);
  }

  lemma {:induction false} AfterBlankLine(block: string, ls: seq<string>)
    requires Split(block) == [""] + ls && ls != []
    ensures block == "\n" + Join(ls)
  {
    JoinSplit(block);
    JoinAppend([""], ls);
  }

  lemma {:induction false} AppendLines(head: string, block: string, ls: seq<string>)
    requires block == "\n" + Join(ls) && ls != [] && AreLines(ls)
    ensures Split(head + block + "\n") == Split(head) + ls + [""]
  {
    var tail := Join(ls);
    SplitAppend(head, tail + "\n");
    assert head + "\n" + (tail + "\n") == head + block + "\n";
    SplitAppend(tail, "");
    assert tail + "\n" + "" == tail + "\n";
    SplitJoin(ls);
    AppendAssociates(Split(head), ls, [""]);
  }

  lemma {:induction false} FirstWithIs(ls: seq<string>, pat: string, i: nat)
    requires i < |ls| && Contains(ls[i], pat) && forall j :: 0 <= j < i ==> !Contains(ls[j], pat)
    ensures FirstWith(ls, pat) == i
  {
  }

  lemma {:induction false} StopIs(ls: seq<string>, begin: string, end: string, i: nat, e: nat)
    requires i <= e < |ls| && Contains(ls[e], end)
    requires forall k :: i <= k < e ==> !Contains(ls[k], end) && !StartsAnotherBlock(ls[k], begin)
    ensures Stop(ls, begin, end, i) == (e + 1, true)
    decreases e - i
  {
    if i < e { StopIs(ls, begin, end, i + 1, e); }
  }

  /** Lines without the BEGIN line, then the lines of a block: the block is found, whole. */
  lemma {:induction false} AppendedLines(h: seq<string>, body: seq<string>, begin: string, end: string)
    requires forall k :: 0 <= k < |h| ==> !Contains(h[k], begin)
    requires WholeBlock(body, begin, end)
    ensures ExtractLines(h + body + [""], begin, end) == Some(Block(Join(body), true))
  {
    var ls, n, e := h + body + [""], |h|, |h| + |body| - 1;
    FirstWithIs(ls, begin, n);
    forall k | n + 1 <= k < e ensures !Contains(ls[k], end) && !StartsAnotherBlock(ls[k], begin) {
      assert ls[k] == body[k - n];
    }
    StopIs(ls, begin, end, n + 1, e);
    assert ls[n..e + 1] == body;
  }

  lemma {:induction false} AppendedBlockIsCurrent(head: string, rc: RcBlock)
    requires WellFormed(rc)
    requires forall k :: 0 <= k < |Split(head)| ==> !Contains(Split(head)[k], rc.marker)
    ensures var b := Extract(head + rc.block + "\n", rc.marker, rc.endMarker); b.Some? && Current(b.value, rc)
  {
    AppendBlockLines(head, rc);
    AppendedLines(Split(head), Split(rc.block)[1..], rc.marker, rc.endMarker);
  }

  lemma {:induction false} SplitTrailing(s: string)
    requires s != "" && s[|s| - 1] == '\n'
    ensures Split(s) == Split(s[..|s| - 1]) + [""]
  {
    assert s == s[..|s| - 1] + "\n" + "";
    SplitAppend(s[..|s| - 1], "");
  }

  /** Collapsing the end only drops empty lines at the end. */
  lemma {:induction false} CollapseEndLines(s: string)
    ensures Split(CollapseEnd(s)) <= Split(s)
    ensures forall k :: |Split(CollapseEnd(s))| <= k < |Split(s)| ==> Split(s)[k] == ""
  {
    if |s| >= 2 && s[|s| - 1] == '\n' && s[|s| - 2] == '\n' {
      SplitTrailing(s);
      CollapseEndLines(s[..|s| - 1]);
    }
  }

  /** One repair makes any file current, and repairing it again changes nothing. */
  lemma {:induction false} RepairReachesHealth(content: string, rc: RcBlock)
    requires WellFormed(rc)
    ensures Holds(Some(Repaired(content, rc)), rc)
    ensures Repaired(Repaired(content, rc), rc) == Repaired(content, rc)
  {
    match Extract(content, rc.marker, rc.endMarker) {
      case None =>
        AppendedBlockIsCurrent(content, rc);
      case Some(b) =>
        if !Current(b, rc) {
          var stripped := Stripped(content, rc.marker, rc.endMarker);
          StripHasNoBegin(Split(content), rc.marker, rc.endMarker, false);
          StrippedLines(content, rc.marker, rc.endMarker);
          CollapseEndLines(stripped);
          AppendedBlockIsCurrent(CollapseEnd(stripped), rc);
        }
    }
  }

  /** After a repair of all rc files the check passes, whatever they held before. */
  lemma {:induction false} RepairedFilesAreHealthy(before: seq<Option<string>>, after: seq<Option<string>>, rc: RcBlock)
    requires WellFormed(rc) && |after| == |before|
    requires forall k :: 0 <= k < |before| ==>
               after[k] == if before[k].None? then None else Some(Repaired(before[k].value, rc))
    ensures Healthy(after, rc)
  {
    forall k | 0 <= k < |after| && after[k].Some? ensures Holds(after[k], rc) {
      RepairReachesHealth(before[k].value, rc);
    }
  }

  // ---------------------------------------------------------------- other blocks survive

  /** Another block definition: its BEGIN marker has the common prefix, its END marker is not empty. */
  ghost predicate IsMarkerPair(begin: string, end: string) {
    MARKER_BEGIN_PREFIX <= begin && end != ""
  }

  /** No line carries a marker of one block together with a marker that ends or opens the other. */
  ghost predicate Apart(ls: seq<string>, rc: RcBlock, begin: string, end: string) {
    forall k :: 0 <= k < |ls| ==> ApartOn(ls[k], rc, begin, end)
  }

  ghost predicate ApartOn(line: string, rc: RcBlock, begin: string, end: string) {
    && (Contains(line, begin) ==> !Contains(line, rc.marker) && !Contains(line, rc.endMarker))
    && (Contains(line, end) ==> !Contains(line, rc.marker))
  }

  lemma {:induction false} ContainsPrefix(line: string, prefix: string, pat: string)
    requires prefix <= pat && Contains(line, pat)
    ensures Contains(line, prefix)
  {
    var i :| 0 <= i <= |line| && OccursAt(line, pat, i);
    assert OccursAt(line, prefix, i);
  }

  lemma {:induction false} ExtractSkip(l: string, rest: seq<string>, begin: string, end: string)
    requires !Contains(l, begin)
    ensures ExtractLines([l] + rest, begin, end) == ExtractLines(rest, begin, end)
  {
    var ls, start := [l] + rest, FirstWith(rest, begin);
    FirstWithShift(l, rest, begin);
    if start < |rest| {
      StopShift(l, rest, begin, end, start + 1);
      var stop := Stop(rest, begin, end, start + 1).0;
      assert ls[start + 1..stop + 1] == rest[start..stop];
    }
  }

  lemma {:induction false} FirstWithShift(l: string, rest: seq<string>, pat: string)
    requires !Contains(l, pat)
    ensures FirstWith([l] + rest, pat) == FirstWith(rest, pat) + 1
  {
    assert ([l] + rest)[1..] == rest;
  }

  lemma {:induction false} StopShift(l: string, rest: seq<string>, begin: string, end: string, i: nat)
    requires i <= |rest|
    ensures Stop([l] + rest, begin, end, i + 1) == (Stop(rest, begin, end, i).0 + 1, Stop(rest, begin, end, i).1)
    decreases |rest| - i
  {
    if i < |rest| { StopShift(l, rest, begin, end, i + 1); }
  }

  /** Line `e` closes the block that opens at line `s`. */
  ghost predicate RunsFromTo(ls: seq<string>, begin: string, end: string, s: nat, e: nat) {
    && s < e < |ls| && FirstWith(ls, begin) == s && Contains(ls[e], end)
    && forall k :: s < k < e ==> !Contains(ls[k], end) && !StartsAnotherBlock(ls[k], begin)
  }

  lemma {:induction false} StopMeaning(ls: seq<string>, begin: string, end: string, i: nat)
    requires i <= |ls| && Stop(ls, begin, end, i).1
    ensures var e := Stop(ls, begin, end, i).0 - 1;
            && i <= e < |ls| && Contains(ls[e], end)
            && forall k :: i <= k < e ==> !Contains(ls[k], end) && !StartsAnotherBlock(ls[k], begin)
    decreases |ls| - i
  {
    if !Contains(ls[i], end) { StopMeaning(ls, begin, end, i + 1); }
  }

  lemma {:induction false} TerminatedRun(ls: seq<string>, begin: string, end: string) returns (s: nat, e: nat)
    requires ExtractLines(ls, begin, end).Some? && ExtractLines(ls, begin, end).value.terminated
    ensures RunsFromTo(ls, begin, end, s, e)
    ensures ExtractLines(ls, begin, end) == Some(Block(Join(ls[s..e + 1]), true))
  {
    s := FirstWith(ls, begin);
    StopMeaning(ls, begin, end, s + 1);
    e := Stop(ls, begin, end, s + 1).0 - 1;
  }

  /** Only the lines up to the closing one decide what is extracted. */
  lemma {:induction false} ExtractDependsOnRun(ls: seq<string>, now: seq<string>, begin: string, end: string, s: nat,
        e: nat)
    requires RunsFromTo(ls, begin, end, s, e) && e < |now| && now[..e + 1] == ls[..e + 1]
    ensures ExtractLines(now, begin, end) == Some(Block(Join(ls[s..e + 1]), true))
  {
    forall k | 0 <= k <= e ensures now[k] == ls[k] {
      assert now[k] == now[..e + 1][k] && ls[k] == ls[..e + 1][k];
    }
    FirstWithIs(now, begin, s);
    StopIs(now, begin, end, s + 1, e);
    assert now[s..e + 1] == ls[s..e + 1];
  }

  lemma {:induction false} StripRun(ls: seq<string>, begin: string, end: string, n: nat)
    requires n <= |ls| && forall k :: 0 <= k < n ==> !Contains(ls[k], begin)
    ensures Strip(ls, begin, end, false) == ls[..n] + Strip(ls[n..], begin, end, false)
  {
    if n > 0 {
      StripRun(ls[1..], begin, end, n - 1);
      assert ls[1..][n - 1..] == ls[n..] && [ls[0]] + ls[1..][..n - 1] == ls[..n];
    } else {
      assert ls[0..] == ls;
    }
  }

  /** Stripping leaves every other terminated block's text as it was. */
  lemma {:induction false} StripKeepsBlock(ls: seq<string>, rc: RcBlock, begin: string, end: string, inBlock: bool)
    requires IsMarkerPair(begin, end) && MARKER_BEGIN_PREFIX <= rc.marker && Apart(ls, rc, begin, end)
    requires ExtractLines(ls, begin, end).Some? && ExtractLines(ls, begin, end).value.terminated
    ensures ExtractLines(Strip(ls, rc.marker, rc.endMarker, inBlock), begin, end) == ExtractLines(ls, begin, end)
  {
    var after := InsideAfter(ls[0], rc.marker, rc.endMarker, inBlock);
    var rest := Strip(ls[1..], rc.marker, rc.endMarker, after);
    var s, e := TerminatedRun(ls, begin, end);
    assert [ls[0]] + ls[1..] == ls;
    if s == 0 {
      OwnLinesKept(ls, rc, begin, end, e);
      ContainsPrefix(ls[0], MARKER_BEGIN_PREFIX, begin);
      assert ApartOn(ls[0], rc, begin, end);
      forall k | 0 <= k < e ensures !Contains(ls[1..][k], rc.marker) {
        assert ls[1..][k] == ls[k + 1];
      }
      StripRun(ls[1..], rc.marker, rc.endMarker, e);
      var out := [ls[0]] + rest;
      assert Strip(ls, rc.marker, rc.endMarker, inBlock) == out;
      assert out[..e + 1] == ls[..e + 1];
      ExtractDependsOnRun(ls, out, begin, end, 0, e);
    } else {
      ExtractSkip(ls[0], ls[1..], begin, end);
      forall k | 0 <= k < |ls[1..]| ensures ApartOn(ls[1..][k], rc, begin, end) {
        assert ls[1..][k] == ls[k + 1];
      }
      StripKeepsBlock(ls[1..], rc, begin, end, after);
      if Keeps(ls[0], rc.marker, rc.endMarker, inBlock) {
        ExtractSkip(ls[0], rest, begin, end);
      } else {
        assert Strip(ls, rc.marker, rc.endMarker, inBlock) == rest;
      }
    }
  }

  /** A terminated block holds no BEGIN line of another definition. */
  lemma {:induction false} OwnLinesKept(ls: seq<string>, rc: RcBlock, begin: string, end: string, e: nat)
    requires MARKER_BEGIN_PREFIX <= rc.marker && Apart(ls, rc, begin, end) && RunsFromTo(ls, begin, end, 0, e)
    ensures forall k :: 0 < k <= e ==> !Contains(ls[k], rc.marker)
  {
    forall k | 0 < k <= e ensures !Contains(ls[k], rc.marker) {
      assert ApartOn(ls[k], rc, begin, end);
      if Contains(ls[k], rc.marker) { ContainsPrefix(ls[k], MARKER_BEGIN_PREFIX, rc.marker); }
    }
  }

  /** Dropping empty lines at the end and appending others leaves every terminated block. */
  lemma {:induction false} TailKeepsBlock(ls: seq<string>, head: seq<string>, tail: seq<string>, begin: string,
        end: string)
    requires ExtractLines(ls, begin, end).Some? && ExtractLines(ls, begin, end).value.terminated
    requires head <= ls && end != "" && forall k :: |head| <= k < |ls| ==> ls[k] == ""
    ensures ExtractLines(head + tail, begin, end) == ExtractLines(ls, begin, end)
  {
    var s, e := TerminatedRun(ls, begin, end);
    assert ls[e] != "";
    assert (head + tail)[..e + 1] == ls[..e + 1];
    ExtractDependsOnRun(ls, head + tail, begin, end, s, e);
  }

  /** Repairing one block leaves the text of every other terminated block unchanged. */
  lemma {:induction false} RepairKeepsOtherBlocks(content: string, rc: RcBlock, begin: string, end: string)
    requires WellFormed(rc) && MARKER_BEGIN_PREFIX <= rc.marker && IsMarkerPair(begin, end)
    requires Apart(Split(content), rc, begin, end)
    requires Extract(content, begin, end).Some? && Extract(content, begin, end).value.terminated
    ensures Extract(Repaired(content, rc), begin, end) == Extract(content, begin, end)
  {
    var ls, own := Split(content), Extract(content, rc.marker, rc.endMarker);
    if own.None? {
      AppendKeepsBlock(ls, content, rc, begin, end);
    } else if !Current(own.value, rc) {
      var stripped := Stripped(content, rc.marker, rc.endMarker);
      StripKeepsBlock(ls, rc, begin, end, false);
      StrippedLines(content, rc.marker, rc.endMarker);
      CollapseEndLines(stripped);
      AppendKeepsBlock(Split(stripped), CollapseEnd(stripped), rc, begin, end);
    }
  }

  lemma {:induction false} AppendKeepsBlock(ls: seq<string>, head: string, rc: RcBlock, begin: string, end: string)
    requires WellFormed(rc) && end != ""
    requires ExtractLines(ls, begin, end).Some? && ExtractLines(ls, begin, end).value.terminated
    requires Split(head) <= ls && forall k :: |Split(head)| <= k < |ls| ==> ls[k] == ""
    ensures Extract(head + rc.block + "\n", begin, end) == ExtractLines(ls, begin, end)
  {
    var tail := Split(rc.block)[1..] + [""];
    AppendBlockLines(head, rc);
    AppendAssociates(Split(head), Split(rc.block)[1..], [""]);
    TailKeepsBlock(ls, Split(head), tail, begin, end);
  }

  // ---------------------------------------------------------------- cleanup

  /** `replace(/\n{3,}$/, '\n\n')`. */
  function CollapseToTwo(s: string): string {
    if |s| >= 3 && s[|s| - 1] == '\n' && s[|s| - 2] == '\n' && s[|s| - 3] == '\n' then CollapseToTwo(s[..|s| - 1]) else s
  }

  function Cleaned(content: string, rc: RcBlock): string {
    if Contains(content, rc.marker) then CollapseToTwo(Stripped(content, rc.marker, rc.endMarker)) else content
  }

  method Cleanup(files: array<Option<string>>, rc: RcBlock)
    modifies files
    ensures forall k :: 0 <= k < files.Length ==>
              files[k] == if old(files[k]).None? then None else Some(Cleaned(old(files[k]).value, rc))
  {
    for k := 0 to files.Length
      invariant forall j :: 0 <= j < k ==>
              files[j] == if old(files[j]).None? then None else Some(Cleaned(old(files[j]).value, rc))
      invariant forall j :: k <= j < files.Length ==> files[j] == old(files[j])
    {
      if files[k].None? || !Contains(files[k].value, rc.marker) { continue; }
      var stripped := StripMarkerBlock(files[k].value, rc.marker, rc.endMarker);
      files[k] := Some(CollapseToTwo(stripped));
    }
  }

  lemma {:induction false} CollapseToTwoLines(s: string)
    ensures Split(CollapseToTwo(s)) <= Split(s)
    ensures forall k :: |Split(CollapseToTwo(s))| <= k < |Split(s)| ==> Split(s)[k] == ""
  {
    if |s| >= 3 && s[|s| - 1] == '\n' && s[|s| - 2] == '\n' && s[|s| - 3] == '\n' {
      SplitTrailing(s);
      CollapseToTwoLines(s[..|s| - 1]);
    }
  }

  ghost predicate SomeLineContains(ls: seq<string>, pat: string) {
    exists k :: 0 <= k < |ls| && Contains(ls[k], pat)
  }

  lemma {:induction false} SomeLineCons(l: string, rest: seq<string>, pat: string)
    ensures SomeLineContains([l] + rest, pat) <==> Contains(l, pat) || SomeLineContains(rest, pat)
  {
    var ls := [l] + rest;
    if Contains(l, pat) { assert Contains(ls[0], pat); }
    if k :| 0 <= k < |rest| && Contains(rest[k], pat) { assert Contains(ls[k + 1], pat); }
    if k :| 0 <= k < |ls| && Contains(ls[k], pat) { assert k == 0 || Contains(rest[k - 1], pat); }
  }

  /** A text holds a one-line pattern exactly when one of its lines does. */
  lemma {:induction false} ContainsByLine(s: string, pat: string)
    requires pat != "" && IsLine(pat)
    ensures Contains(s, pat) <==> SomeLineContains(Split(s), pat)
  {
    ContainsStep(s, pat);
    if s == "" {
      assert Split(s) == [""] + [];
      SomeLineCons("", [], pat);
    } else {
      var rest := Split(s[1..]);
      ContainsByLine(s[1..], pat);
      FirstLinePrefix(s, pat);
      if s[0] == '\n' {
        SomeLineCons("", rest, pat);
        ContainsStep("", pat);
      } else {
        var first := [s[0]] + rest[0];
        SomeLineCons(first, rest[1..], pat);
        SomeLineCons(rest[0], rest[1..], pat);
        assert [rest[0]] + rest[1..] == rest && first[1..] == rest[0];
        ContainsStep(first, pat);
      }
    }
  }

  lemma {:induction false} FirstLinePrefix(s: string, pat: string)
    requires IsLine(pat)
    ensures pat <= s <==> pat <= Split(s)[0]
  {
    if s != "" && pat != "" {
      FirstLinePrefix(s[1..], pat[1..]);
      if s[0] != '\n' {
        var l := Split(s)[0];
        assert l[0] == s[0] && l[1..] == Split(s[1..])[0];
        assert pat <= s <==> pat[0] == s[0] && pat[1..] <= s[1..];
        assert pat <= l <==> pat[0] == l[0] && pat[1..] <= l[1..];
      }
    }
  }

  /** Cleaning removes the block's BEGIN line for good, changes nothing the second time, and
      leaves every other terminated block. */
  lemma {:induction false} CleanupProperties(content: string, rc: RcBlock, begin: string, end: string)
    requires IsLine(rc.marker) && MARKER_BEGIN_PREFIX <= rc.marker && IsMarkerPair(begin, end)
    ensures var now := Cleaned(content, rc);
            && Extract(now, rc.marker, rc.endMarker).None?
            && Cleaned(now, rc) == now
            && (Apart(Split(content), rc, begin, end)
                && Extract(content, begin, end).Some? && Extract(content, begin, end).value.terminated ==>
                  Extract(now, begin, end) == Extract(content, begin, end))
  {
    var ls := Split(content);
    ContainsByLine(content, rc.marker);
    if Contains(content, rc.marker) {
      var stripped := Stripped(content, rc.marker, rc.endMarker);
      StripHasNoBegin(ls, rc.marker, rc.endMarker, false);
      StrippedLines(content, rc.marker, rc.endMarker);
      CollapseToTwoLines(stripped);
      var head := Split(CollapseToTwo(stripped));
      assert forall k :: 0 <= k < |head| ==> head[k] == Split(stripped)[k];
      NoBeginNoBlock(CollapseToTwo(stripped), rc);
      if Apart(ls, rc, begin, end) && Extract(content, begin, end).Some? && Extract(content, begin, end).value.terminated {
        StripKeepsBlock(ls, rc, begin, end, false);
        TailKeepsBlock(Split(stripped), head, [], begin, end);
        assert head + [] == head;
      }
    } else {
      NoBeginNoBlock(content, rc);
    }
  }

  lemma {:induction false} NoBeginNoBlock(content: string, rc: RcBlock)
    requires IsLine(rc.marker) && rc.marker != ""
    requires forall k :: 0 <= k < |Split(content)| ==> !Contains(Split(content)[k], rc.marker)
    ensures Extract(content, rc.marker, rc.endMarker).None? && !Contains(content, rc.marker)
  {
    ContainsByLine(content, rc.marker);
  }

  // ---------------------------------------------------------------- the user's own lines

  function NonEmpty(ls: seq<string>): seq<string> {
    if ls == [] then [] else NonEmpty(ls[..|ls| - 1]) + if ls[|ls| - 1] == "" then [] else [ls[|ls| - 1]]
  }

  lemma {:induction false} NonEmptyAppend(a: seq<string>, b: seq<string>)
    ensures NonEmpty(a + b) == NonEmpty(a) + NonEmpty(b)
    decreases |b|
  {
    if b == [] {
      assert a + b == a;
    } else {
      var n := |b| - 1;
      assert (a + b)[..|a| + n] == a + b[..n];
      NonEmptyAppend(a, b[..n]);
    }
  }

  lemma {:induction false} OnlyEmptyGo(a: seq<string>, b: seq<string>)
    requires a <= b && forall k :: |a| <= k < |b| ==> b[k] == ""
    ensures NonEmpty(a) == NonEmpty(b)
    decreases |b|
  {
    if |a| == |b| {
      assert a == b;
    } else {
      OnlyEmptyGo(a, b[..|b| - 1]);
    }
  }

  /** No line of the user's is lost or moved: a repair leaves a current block alone, and otherwise
      puts the block behind the user's lines; a cleaning leaves just those. Only blank lines at
      the end may go. */
  lemma {:induction false} UsersLinesStay(content: string, rc: RcBlock)
    requires WellFormed(rc) && IsLine(rc.marker) && NeverBoth(Split(content), rc.marker, rc.endMarker)
    ensures var user := NonEmpty(NotOurs(Split(content), rc.marker, rc.endMarker, 0));
            var block := Extract(content, rc.marker, rc.endMarker);
            && (if block.Some? && block.value.terminated && Contains(block.value.text, rc.signature)
                then Repaired(content, rc) == content
                else NonEmpty(Split(Repaired(content, rc))) == user + NonEmpty(Split(rc.block)))
            && NonEmpty(Split(Cleaned(content, rc))) == user
  {
    var ls := Split(content);
    StripDropsOurBlocks(ls, rc.marker, rc.endMarker);
    var stripped := Stripped(content, rc.marker, rc.endMarker);
    StrippedLines(content, rc.marker, rc.endMarker);
    StrippedUser(content, rc);
    if Extract(content, rc.marker, rc.endMarker).None? {
      StripWithoutBegin(ls, rc.marker, rc.endMarker);
      BlockBehind(content, rc);
    } else if !Holds(Some(content), rc) {
      CollapseEndLines(stripped);
      OnlyEmptyGo(Split(CollapseEnd(stripped)), Split(stripped));
      BlockBehind(CollapseEnd(stripped), rc);
    }
    if Contains(content, rc.marker) {
      CollapseToTwoLines(stripped);
      OnlyEmptyGo(Split(CollapseToTwo(stripped)), Split(stripped));
    } else {
      ContainsByLine(content, rc.marker);
      StripWithoutBegin(ls, rc.marker, rc.endMarker);
    }
  }

  lemma {:induction false} StrippedUser(content: string, rc: RcBlock)
    ensures NonEmpty(Split(Stripped(content, rc.marker, rc.endMarker)))
         == NonEmpty(Strip(Split(content), rc.marker, rc.endMarker, false))
  {
    StrippedLines(content, rc.marker, rc.endMarker);
    assert NonEmpty([""]) == [] by { assert [""][..0] == []; }
  }

  lemma {:induction false} BlockBehind(head: string, rc: RcBlock)
    requires WellFormed(rc)
    ensures NonEmpty(Split(head + rc.block + "\n")) == NonEmpty(Split(head)) + NonEmpty(Split(rc.block))
  {
    AppendBlockLines(head, rc);
    assert Split(rc.block) == [""] + Split(rc.block)[1..];
    BehindLines(Split(head), Split(rc.block)[1..]);
  }

  lemma {:induction false} BehindLines(h: seq<string>, body: seq<string>)
    ensures NonEmpty(h + body + [""]) == NonEmpty(h) + NonEmpty([""] + body)
  {
    assert NonEmpty([""]) == [] by { assert [""][..0] == []; }
    NonEmptyAppend([""], body);
    NonEmptyAppend(h, body);
    NonEmptyAppend(h + body, [""]);
  }

  /** Of the line breaks at the end, a rewrite keeps one and a cleaning two. */
  lemma {:induction false} EndsAreCollapsed(s: string)
    ensures CollapseEnd(s) <= s && (forall k :: |CollapseEnd(s)| <= k < |s| ==> s[k] == '\n')
    ensures var r := CollapseEnd(s);
            && !(|r| >= 2 && r[|r| - 1] == '\n' && r[|r| - 2] == '\n')
            && (s != "" && s[|s| - 1] == '\n' ==> r != "" && r[|r| - 1] == '\n')
    ensures CollapseToTwo(s) <= s && (forall k :: |CollapseToTwo(s)| <= k < |s| ==> s[k] == '\n')
    ensures var r := CollapseToTwo(s);
            && !(|r| >= 3 && r[|r| - 1] == '\n' && r[|r| - 2] == '\n' && r[|r| - 3] == '\n')
            && (r != s ==> |r| >= 2 && r[|r| - 1] == '\n' && r[|r| - 2] == '\n')
  {
    if |s| >= 2 && s[|s| - 1] == '\n' && s[|s| - 2] == '\n' { EndsAreCollapsed(s[..|s| - 1]); }
  }

  /** The block that a file has, if it has one. */
  function BlockOf(file: Option<string>, rc: RcBlock): Option<Block> {
    match file
    case None => None
    case Some(content) => Extract(content, rc.marker, rc.endMarker)
  }

  /** The check passes exactly when every block found is terminated and holds the signature, and
      some file has one unless there is no file at all. */
  lemma {:induction false} HealthMeans(files: seq<Option<string>>, rc: RcBlock)
    ensures Healthy(files, rc) <==>
              && (forall k :: 0 <= k < |files| && BlockOf(files[k], rc).Some? ==>
                    BlockOf(files[k], rc).value.terminated && Contains(BlockOf(files[k], rc).value.text, rc.signature))
              && ((exists k :: 0 <= k < |files| && BlockOf(files[k], rc).Some?)
                  || (forall k :: 0 <= k < |files| ==> files[k].None?))
  {
    forall k | 0 <= k < |files|
      ensures Damaged(files[k], rc) <==> BlockOf(files[k], rc).Some? && !Current(BlockOf(files[k], rc).value, rc)
      ensures Holds(files[k], rc) <==> BlockOf(files[k], rc).Some? && Current(BlockOf(files[k], rc).value, rc)
    {
    }
  }
}
