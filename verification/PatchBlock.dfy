/** Pilot's marked block in the user's YAML patch file: composing it, finding it again, replacing
    it, and taking it out. The plugin's URL and hash are strings of the configuration. */
module PatchBlock {
  import opened Wrappers
  import opened Seqs
  import opened Lines
  import opened PatchText

  datatype Config = Config(marker: string, entryId: string, url: string)

  /** `block` is None when there is none, or when the markers do not pair up. */
  datatype Parse = Parse(before: string, block: Option<string>, after: string, conflict: bool)

  datatype Error = Conflict

  predicate IsSpace(c: char) { c == ' ' || c == '\t' || c == '\n' || c == '\r' || c == '\U{000B}' || c == '\U{000C}' }

  /** `trim().length === 0`. */
  predicate Blank(s: string) { forall i :: 0 <= i < |s| ==> IsSpace(s[i]) }

  function StripCr(s: string): string {
    if s != "" && s[|s| - 1] == '\r' then s[..|s| - 1] else s
  }

  /** `split(/\r?\n/)`. */
  function CrLines(s: string): seq<string> { Map(StripCr, WholeLines(s)) + [Tail(s)] }

  predicate HasMetadataLine(block: string, expected: string) { expected in CrLines(block) }

  predicate SomeExtends(ls: seq<string>, prefix: string) {
    ls != [] && (prefix < ls[0] || SomeExtends(ls[1..], prefix))
  }

  predicate HasMetadataPrefix(block: string, prefix: string) { SomeExtends(CrLines(block), prefix) }

  const ENTRY := "# entryId="
  const SOURCE := "# pluginSource="
  const HASH := "# pluginHash="

  // ---------------------------------------------------------------- the created-file flag

  const CREATED := "created-file:"

  function SkipSpace(s: string, i: nat): (k: nat)
    requires i <= |s|
    ensures i <= k <= |s|
    decreases |s| - i
  {
    if i < |s| && IsSpace(s[i]) then SkipSpace(s, i + 1) else i
  }

  function FlagAt(s: string, i: nat): Option<bool> {
    if !OccursAt(s, CREATED, i) then None
    else
      var k := SkipSpace(s, i + |CREATED|);
      if OccursAt(s, "true", k) then Some(true) else if OccursAt(s, "false", k) then Some(false) else None
  }

  /** The first match of `/created-file:\s*(true|false)/` from `i` on. */
  function FirstFlag(s: string, i: nat): Option<bool>
    decreases |s| - i
  {
    if i >= |s| then None else if FlagAt(s, i).Some? then FlagAt(s, i) else FirstFlag(s, i + 1)
  }

  method ExtractCreatedFlag(block: string) returns (flag: Option<bool>)
    ensures flag == FirstFlag(block, 0)
  {
    var i := 0;
    while i < |block|
      invariant FirstFlag(block, 0) == FirstFlag(block, i)
    {
      flag := FlagAt(block, i);
      if flag.Some? { return; }
      i := i + 1;
    }
    flag := None;
  }

  // ---------------------------------------------------------------- composing

  const FLAGGED := " (created-file: "

  function Created(created: bool): string { FLAGGED + (if created then "true)" else "false)") }

  const INSERT := "- insert:"
  const ID := "  - id: 'loongsuite-pilot-observability'"
  const NAME := "    name: "

  function FirstLine(cfg: Config, created: bool): string { BEGIN + cfg.marker + Created(created) }

  function BlockLines(cfg: Config, hash: string, created: bool): seq<string> {
    [FirstLine(cfg, created), ENTRY + cfg.entryId, SOURCE + cfg.url, HASH + hash, INSERT, ID,
     NAME + cfg.url, END + cfg.marker]
  }

  function Block(cfg: Config, hash: string, created: bool): string { Join(BlockLines(cfg, hash, created) + [""]) }

  // ---------------------------------------------------------------- finding

  predicate ValidBegin(line: string, marker: string) {
    || line == BEGIN + marker
    || line == BEGIN + marker + Created(true)
    || line == BEGIN + marker + Created(false)
  }

  predicate Damaged(bytes: string, b: nat, e: nat, block: string, marker: string)
    requires b <= |bytes| && e <= |bytes|
  {
    || !ValidBegin(StripCr(bytes[b..LineEnd(bytes, b)]), marker)
    || StripCr(bytes[e..LineEnd(bytes, e)]) != END + marker
    || !HasMetadataPrefix(block, ENTRY)
    || !HasMetadataPrefix(block, SOURCE)
    || !HasMetadataPrefix(block, HASH)
  }

  function BlockEnd(bytes: string, e: nat): (n: nat)
    requires e <= |bytes|
    ensures e <= n <= |bytes|
  {
    if LineEnd(bytes, e) < |bytes| then LineEnd(bytes, e) + 1 else |bytes|
  }

  function Cut(bytes: string, marker: string, b: nat, e: nat, n: nat): Parse
    requires b < e <= n <= |bytes|
  {
    Parse(bytes[..b], Some(bytes[b..n]), bytes[n..], Damaged(bytes, b, e, bytes[b..n], marker))
  }

  /** The parse, given where the marker lines are. */
  function ParseAt(bytes: string, marker: string, bs: seq<nat>, es: seq<nat>): Parse {
    if bs == [] && es == [] then Parse(bytes, None, "", false)
    else if |bs| != 1 || |es| != 1 || es[0] <= bs[0] || es[0] > |bytes| then Parse(bytes, None, "", true)
    else Cut(bytes, marker, bs[0], es[0], BlockEnd(bytes, es[0]))
  }

  function Parsed(bytes: string, marker: string): Parse {
    ParseAt(bytes, marker, Offsets(bytes, BEGIN + marker, 0), Offsets(bytes, END + marker, 0))
  }

  method SplitOnPilotBlock(bytes: string, marker: string) returns (p: Parse)
    requires IsLine(marker)
    ensures p == Parsed(bytes, marker)
    ensures p.before + p.block.GetOr("") + p.after == bytes
  {
    var bs := FindLineMarkerOffsets(bytes, BEGIN + marker);
    var es := FindLineMarkerOffsets(bytes, END + marker);
    OffsetsBound(bytes, END + marker, 0);
    if bs == [] && es == [] { return Parse(bytes, None, "", false); }
    if |bs| != 1 || |es| != 1 { return Parse(bytes, None, "", true); }
    if es[0] <= bs[0] { return Parse(bytes, None, "", true); }
    var blockEnd := LineEnd(bytes, es[0]);
    if blockEnd < |bytes| && bytes[blockEnd] == '\n' { blockEnd := blockEnd + 1; }
    assert blockEnd == BlockEnd(bytes, es[0]);
    p := Cut(bytes, marker, bs[0], es[0], blockEnd);
    CutKeepsBytes(bytes, bs[0], blockEnd);
  }

  lemma {:induction false} CutKeepsBytes(bytes: string, b: nat, n: nat)
    requires b <= n <= |bytes|
    ensures bytes[..b] + bytes[b..n] + bytes[n..] == bytes
  {
  }

  lemma {:induction false} OffsetsBound(bytes: string, needle: string, from: nat)
    ensures forall i :: 0 <= i < |Offsets(bytes, needle, from)| ==> Offsets(bytes, needle, from)[i] < |bytes|
    decreases |bytes| - from
  {
    if from < |bytes| { OffsetsBound(bytes, needle, from + 1); }
  }

  // ---------------------------------------------------------------- deploy and undeploy

  predicate Refused(p: Parse, cfg: Config) {
    p.conflict || (p.block.Some? && !HasMetadataLine(p.block.value, ENTRY + cfg.entryId))
  }

  function Separator(bytes: string): string {
    if bytes != "" && bytes[|bytes| - 1] != '\n' then "\n" else ""
  }

  /** The file after a deploy; `file` is None when it does not exist. */
  function Deployed(cfg: Config, hash: string, file: Option<string>): Result<string, Error> {
    var bytes := file.GetOr("");
    var p := Parsed(bytes, cfg.marker);
    if Refused(p, cfg) then Err(Conflict)
    else
      match p.block
      case None => Ok(bytes + Separator(bytes) + Block(cfg, hash, file.None?))
      case Some(block) => Ok(p.before + Block(cfg, hash, FirstFlag(block, 0).GetOr(file.None?)) + p.after)
  }

  function Undeployed(cfg: Config, file: Option<string>): Result<Option<string>, Error> {
    if file.None? then Ok(None)
    else
      var p := Parsed(file.value, cfg.marker);
      if Refused(p, cfg) then Err(Conflict)
      else if p.block.None? then Ok(file)
      else if FirstFlag(p.block.value, 0) == Some(true) && Blank(p.before + p.after) then Ok(None)
      else Ok(Some(p.before + p.after))
  }

  /** The deployment is up to date, as far as the patch file says. */
  predicate IsCurrent(cfg: Config, hash: string, bytes: string) {
    var p := Parsed(bytes, cfg.marker);
    && !p.conflict && p.block.Some?
    && HasMetadataLine(p.block.value, ENTRY + cfg.entryId)
    && HasMetadataLine(p.block.value, SOURCE + cfg.url)
    && HasMetadataLine(p.block.value, HASH + hash)
  }

  // ---------------------------------------------------------------- the file, edited by others too

  datatype Edit = Leave | Replace(content: Option<string>)

  datatype Outcome = Done | Refusal | Raced

  /** The content is the one that was there or one that an edit put there. */
  predicate SomeEdit(edits: seq<Edit>, before: Option<string>, content: Option<string>) {
    content == before || exists k :: 0 <= k < |edits| && edits[k] == Replace(content)
  }

  /** Nobody edits the file during this attempt. */
  predicate Calm(edits: seq<Edit>, attempt: nat)
    requires 2 * attempt + 1 < |edits|
  {
    edits[2 * attempt].Leave? && edits[2 * attempt + 1].Leave?
  }

  class PatchFile {
    var content: Option<string>

    constructor (content: Option<string>)
      ensures this.content == content
    {
      this.content := content;
    }

    method Edited(edit: Edit)
      modifies this
      ensures content == if edit.Leave? then old(content) else edit.content
    {
      if edit.Replace? { content := edit.content; }
    }

    /** Writes `next` (None deletes) unless either of two more reads finds other bytes than
        `original`; the file may be edited before each. */
    method WriteIfUnchanged(next: Option<string>, original: string, first: Edit, second: Edit)
      returns (wrote: bool, ghost seen: Option<string>)
      modifies this
      ensures wrote ==> content == next && seen.GetOr("") == original
      ensures !wrote ==> content == seen && seen.GetOr("") != original
      ensures seen == old(content) || first == Replace(seen) || second == Replace(seen)
      ensures first.Leave? && second.Leave? ==> seen == old(content)
    {
      Edited(first);
      seen := content;
      if content.GetOr("") != original { return false, seen; }
      Edited(second);
      seen := content;
      if content.GetOr("") != original { return false, seen; }
      content := next;
      wrote := true;
    }

    /** Two attempts to put the block in, against whatever is edited meanwhile. What is written
        was composed from the very bytes that it replaces. */
    method DeployAt(cfg: Config, hash: string, edits: seq<Edit>)
      returns (outcome: Outcome, ghost read: Option<string>, ghost seen: Option<string>)
      requires IsLine(cfg.marker) && |edits| == 4
      modifies this
      ensures outcome == Done ==>
                && seen.GetOr("") == read.GetOr("")
                && Deployed(cfg, hash, read).Ok? && content == Some(Deployed(cfg, hash, read).value)
      ensures outcome == Refusal ==> content == read && Deployed(cfg, hash, read) == Err(Conflict)
      ensures outcome == Raced ==> content == seen && seen.GetOr("") != read.GetOr("")
      ensures SomeEdit(edits, old(content), read) && SomeEdit(edits, old(content), seen)
      ensures outcome == Raced ==> !Calm(edits, 0) && !Calm(edits, 1)
      ensures Calm(edits, 0) ==> read == seen == old(content)
    {
      read, seen := content, content;
      for attempt := 0 to 2
        invariant attempt > 0 ==> content == seen && seen.GetOr("") != read.GetOr("")
        invariant attempt > 0 ==> !Calm(edits, 0)
        invariant attempt > 1 ==> !Calm(edits, 1)
        invariant attempt == 0 ==> content == seen == read == old(content)
        invariant SomeEdit(edits, old(content), read) && SomeEdit(edits, old(content), seen)
      {
        var original := content;
        read := original;
        var p := SplitOnPilotBlock(original.GetOr(""), cfg.marker);
        if Refused(p, cfg) { return Refusal, read, seen; }
        var next := NextBytes(cfg, hash, original, p);
        var wrote;
        wrote, seen := WriteIfUnchanged(Some(next), original.GetOr(""), edits[2 * attempt], edits[2 * attempt + 1]);
        if wrote { return Done, read, seen; }
      }
      outcome := Raced;
    }

    method UndeployAt(cfg: Config, edits: seq<Edit>)
      returns (outcome: Outcome, ghost read: Option<string>, ghost seen: Option<string>)
      requires IsLine(cfg.marker) && |edits| == 4
      modifies this
      ensures outcome == Done ==>
                seen.GetOr("") == read.GetOr("") && Undeployed(cfg, read) == Ok(content)
      ensures outcome == Refusal ==> content == read && Undeployed(cfg, read) == Err(Conflict)
      ensures outcome == Raced ==> content == seen && seen.GetOr("") != read.GetOr("")
      ensures SomeEdit(edits, old(content), read) && SomeEdit(edits, old(content), seen)
      ensures outcome == Raced ==> !Calm(edits, 0) && !Calm(edits, 1)
      ensures Calm(edits, 0) ==> read == seen == old(content)
    {
      read, seen := content, content;
      for attempt := 0 to 2
        invariant attempt > 0 ==> content == seen && seen.GetOr("") != read.GetOr("")
        invariant attempt > 0 ==> !Calm(edits, 0)
        invariant attempt > 1 ==> !Calm(edits, 1)
        invariant attempt == 0 ==> content == seen == read == old(content)
        invariant SomeEdit(edits, old(content), read) && SomeEdit(edits, old(content), seen)
      {
        var original := content;
        read := original;
        seen := original;
        if original.None? { return Done, read, seen; }
        var p := SplitOnPilotBlock(original.value, cfg.marker);
        if Refused(p, cfg) { return Refusal, read, seen; }
        if p.block.None? { return Done, read, seen; }
        var next := RestBytes(cfg, original, p);
        var wrote;
        wrote, seen := WriteIfUnchanged(next, original.value, edits[2 * attempt], edits[2 * attempt + 1]);
        if wrote { return Done, read, seen; }
      }
      outcome := Raced;
    }
  }

  /** What is left of the file without the block; None when it is to be deleted. */
  method RestBytes(cfg: Config, original: Option<string>, p: Parse) returns (next: Option<string>)
    requires original.Some? && p == Parsed(original.value, cfg.marker) && !Refused(p, cfg) && p.block.Some?
    ensures Undeployed(cfg, original) == Ok(next)
  {
    var flag := ExtractCreatedFlag(p.block.value);
    var rest := p.before + p.after;
    next := if flag == Some(true) && Blank(rest) then None else Some(rest);
  }

  method NextBytes(cfg: Config, hash: string, original: Option<string>, p: Parse) returns (next: string)
    requires p == Parsed(original.GetOr(""), cfg.marker) && !Refused(p, cfg)
    ensures Deployed(cfg, hash, original) == Ok(next)
  {
    var existed := original.Some?;
    var bytes := original.GetOr("");
    var created := !existed;
    if p.block.Some? {
      var existing := ExtractCreatedFlag(p.block.value);
      if existing.Some? { created := existing.value; }
      return p.before + Block(cfg, hash, created) + p.after;
    }
    var sep := if |bytes| > 0 && bytes[|bytes| - 1] != '\n' then "\n" else "";
    next := bytes + sep + Block(cfg, hash, created);
  }
}
