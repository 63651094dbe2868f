/** Removing Pilot's trust sections from Codex's `config.toml` without parsing it.

    A scanner tracks quotes and brackets across lines and marks the lines where a table
    header may stand. Sections run from one such header to the next. Removing any choice of
    sections must not disturb what the scanner says of the lines that stay. The TOML parser is
    abstract: it decodes a header to a key, and it accepts or refuses a section's body. */
module TrustSections {
  import opened Wrappers
  import opened Seqs
  import opened Lines

  /** `parseToml` as this code uses it. */
  datatype Toml = Toml(decode: string -> Option<string>, valid: string -> bool)

  datatype Error = InvalidCodexConfig

  // ---------------------------------------------------------------- the scanner

  datatype Scan = Scan(quote: Option<char>, multiline: bool, depth: int) {
    predicate Editable() { quote.None? && depth == 0 }
    predicate Valid() { quote.None? ==> !multiline }
  }

  const START: Scan := Scan(None, false, 0)

  predicate Tripled(text: string, i: nat)
    requires i < |text|
  {
    i + 3 <= |text| && text[i + 1] == text[i] && text[i + 2] == text[i]
  }

  /** The last of the equal quotes that start at `i`. */
  function LastOfRun(text: string, i: nat): (j: nat)
    requires i < |text|
    ensures i <= j < |text|
    decreases |text| - i
  {
    if i + 1 < |text| && text[i + 1] == text[i] then LastOfRun(text, i + 1) else i
  }

  /** The scanner's state after `text[i..]`. */
  function ScanFrom(st: Scan, text: string, i: nat): Scan
    decreases |text| - i
  {
    if i >= |text| then st
    else
      var ch := text[i];
      match st.quote
      case Some(q) =>
        if q == '"' && ch == '\\' then ScanFrom(st, text, i + 2)
        else if ch != q then ScanFrom(st, text, i + 1)
        else if !st.multiline then ScanFrom(st.(quote := None), text, i + 1)
        else if !Tripled(text, i) then ScanFrom(st, text, i + 1)
        else ScanFrom(Scan(None, false, st.depth), text, LastOfRun(text, i) + 1)
      case None =>
        if ch == '#' then st
        else if ch == '"' || ch == '\'' then
          ScanFrom(Scan(Some(ch), Tripled(text, i), st.depth), text, if Tripled(text, i) then i + 3 else i + 1)
        else if ch == '[' || ch == '{' then ScanFrom(st.(depth := st.depth + 1), text, i + 1)
        else if ch == ']' || ch == '}' then ScanFrom(st.(depth := st.depth - 1), text, i + 1)
        else ScanFrom(st, text, i + 1)
  }

  function ScanLine(st: Scan, text: string): Scan { ScanFrom(st, text, 0) }

  lemma {:induction false} ScanKeepsValid(st: Scan, text: string, i: nat)
    requires st.Valid()
    ensures ScanFrom(st, text, i).Valid()
    decreases |text| - i
  {
    if i < |text| {
      var ch := text[i];
      match st.quote
      case Some(q) =>
        if q == '"' && ch == '\\' { ScanKeepsValid(st, text, i + 2); }
        else if ch != q { ScanKeepsValid(st, text, i + 1); }
        else if !st.multiline { ScanKeepsValid(st.(quote := None), text, i + 1); }
        else if !Tripled(text, i) { ScanKeepsValid(st, text, i + 1); }
        else { ScanKeepsValid(Scan(None, false, st.depth), text, LastOfRun(text, i) + 1); }
      case None =>
        if ch == '#' {}
        else if ch == '"' || ch == '\'' {
          ScanKeepsValid(Scan(Some(ch), Tripled(text, i), st.depth), text, if Tripled(text, i) then i + 3 else i + 1);
        }
        else if ch == '[' || ch == '{' { ScanKeepsValid(st.(depth := st.depth + 1), text, i + 1); }
        else if ch == ']' || ch == '}' { ScanKeepsValid(st.(depth := st.depth - 1), text, i + 1); }
        else { ScanKeepsValid(st, text, i + 1); }
    }
  }

  datatype Line = Line(text: string, editable: bool)

  function Flagged(ls: seq<string>, st: Scan): (r: seq<Line>)
    ensures |r| == |ls|
  {
    if ls == [] then [] else [Line(ls[0], st.Editable())] + Flagged(ls[1..], ScanLine(st, ls[0]))
  }

  function Texts(fl: seq<Line>): (r: seq<string>)
    ensures |r| == |fl|
  {
    if fl == [] then [] else [fl[0].text] + Texts(fl[1..])
  }

  lemma {:induction false} TextsOfFlagged(ls: seq<string>, st: Scan)
    ensures Texts(Flagged(ls, st)) == ls
  {
    if ls != [] { TextsOfFlagged(ls[1..], ScanLine(st, ls[0])); }
  }

  method ConfigLines(content: string) returns (lines: seq<Line>)
    ensures lines == Flagged(Split(content), START)
  {
    var ls := Split(content);
    var quote: Option<char>, multiline, depth := None, false, 0;
    lines := [];
    for k := 0 to |ls|
      invariant lines + Flagged(ls[k..], Scan(quote, multiline, depth)) == Flagged(ls, START)
    {
      var text := ls[k];
      ghost var before := Scan(quote, multiline, depth);
      lines := lines + [Line(text, quote.None? && depth == 0)];
      var i := 0;
      while i < |text|
        invariant ScanFrom(Scan(quote, multiline, depth), text, i) == ScanLine(before, text)
      {
        var ch := text[i];
        if quote.Some? {
          if quote == Some('"') && ch == '\\' { i := i + 2; continue; }
          if quote != Some(ch) { i := i + 1; continue; }
          if !multiline { quote := None; i := i + 1; continue; }
          if !Tripled(text, i) { i := i + 1; continue; }
          ghost var run := LastOfRun(text, i);
          while i + 1 < |text| && quote == Some(text[i + 1])
            invariant i < |text| && quote == Some(text[i]) && LastOfRun(text, i) == run
          {
            i := i + 1;
          }
          quote, multiline := None, false;
        } else if ch == '#' {
          break;
        } else if ch == '"' || ch == '\'' {
          quote, multiline := Some(ch), Tripled(text, i);
          if multiline { i := i + 2; }
        } else if ch == '[' || ch == '{' {
          depth := depth + 1;
        } else if ch == ']' || ch == '}' {
          depth := depth - 1;
        }
        i := i + 1;
      }
      assert Scan(quote, multiline, depth) == ScanLine(before, text);
      assert ls[k..][0] == text && ls[k..][1..] == ls[k + 1..];
      assert lines[..k] + [lines[k]] == lines;
    }
    assert ls[|ls|..] == [];
  }

  // ---------------------------------------------------------------- sections

  /** JavaScript's `\s`, apart from the range U+2000 to U+200A. */
  const SPACES: string := " \t\n\r\U{0B}\U{0C}\U{A0}\U{1680}\U{2028}\U{2029}\U{202F}\U{205F}\U{3000}\U{FEFF}"

  predicate IsSpace(c: char) { c in SPACES || '\U{2000}' <= c <= '\U{200A}' }

  function Trimmed(text: string): string {
    if text != "" && IsSpace(text[0]) then Trimmed(text[1..]) else text
  }

  predicate IsHeader(l: Line) { l.editable && Trimmed(l.text) != "" && Trimmed(l.text)[0] == '[' }

  /** Only a table declaration names a key, never an array of tables. */
  function TrustSectionKey(toml: Toml, header: string): Option<string> {
    var t := Trimmed(header);
    if t == "" || t[0] != '[' || (|t| > 1 && t[1] == '[') then None else toml.decode(header)
  }

  datatype Range = Range(key: string, start: nat, end: nat)

  function NextHeader(fl: seq<Line>, k: nat): (h: nat)
    requires k <= |fl|
    ensures k <= h <= |fl| && (h < |fl| ==> IsHeader(fl[h])) && forall i :: k <= i < h ==> !IsHeader(fl[i])
    decreases |fl| - k
  {
    if k == |fl| || IsHeader(fl[k]) then k else NextHeader(fl, k + 1)
  }

  predicate IsSectionAt(toml: Toml, l: Line) { IsHeader(l) && TrustSectionKey(toml, l.text).Some? }

  function RangeAt(toml: Toml, fl: seq<Line>, k: nat): Range
    requires k < |fl| && IsSectionAt(toml, fl[k])
  {
    Range(TrustSectionKey(toml, fl[k].text).value, k, NextHeader(fl, k + 1))
  }

  function RangesFrom(toml: Toml, fl: seq<Line>, k: nat): seq<Range>
    requires k <= |fl|
    decreases |fl| - k
  {
    if k == |fl| then []
    else (if IsSectionAt(toml, fl[k]) then [RangeAt(toml, fl, k)] else []) + RangesFrom(toml, fl, k + 1)
  }

  lemma {:induction false} RangesAreExact(toml: Toml, fl: seq<Line>, k: nat, r: Range)
    requires k <= |fl|
    ensures r in RangesFrom(toml, fl, k) <==> k <= r.start < |fl| && IsSectionAt(toml, fl[r.start]) && r == RangeAt(toml, fl, r.start)
    decreases |fl| - k
  {
    if k < |fl| { RangesAreExact(toml, fl, k + 1, r); }
  }

  /** What the loop holds before line `i`: all ranges that started, the last one still open when
      the last header named a key. */
  ghost predicate RangesSoFar(toml: Toml, fl: seq<Line>, sections: seq<Range>, current: bool, i: nat)
    requires i <= |fl|
  {
    var all := RangesFrom(toml, fl, 0);
    if current then
      && sections != []
      && sections[|sections| - 1].end == |fl|
      && Closed(sections, NextHeader(fl, i)) + RangesFrom(toml, fl, i) == all
    else sections + RangesFrom(toml, fl, i) == all
  }

  lemma {:induction false} OpenRange(toml: Toml, fl: seq<Line>, sections: seq<Range>, i: nat)
    requires i < |fl| && RangesSoFar(toml, fl, sections, false, i) && IsSectionAt(toml, fl[i])
    ensures RangesSoFar(toml, fl, sections + [Range(TrustSectionKey(toml, fl[i].text).value, i, |fl|)], true, i + 1)
  {
    var pushed := sections + [Range(TrustSectionKey(toml, fl[i].text).value, i, |fl|)];
    assert Closed(pushed, NextHeader(fl, i + 1)) == sections + [RangeAt(toml, fl, i)];
    AppendAssociates(sections, [RangeAt(toml, fl, i)], RangesFrom(toml, fl, i + 1));
  }

  lemma {:induction false} SkipLine(toml: Toml, fl: seq<Line>, sections: seq<Range>, current: bool, i: nat)
    requires i < |fl| && RangesSoFar(toml, fl, sections, current, i) && !IsSectionAt(toml, fl[i])
    requires IsHeader(fl[i]) ==> !current
    ensures RangesSoFar(toml, fl, sections, current, i + 1)
  {
    assert RangesFrom(toml, fl, i) == RangesFrom(toml, fl, i + 1);
  }

  /** The last range stays open, to the end of the file, until the next header closes it. */
  method TrustSectionRanges(toml: Toml, content: string) returns (sections: seq<Range>)
    ensures sections == RangesFrom(toml, Flagged(Split(content), START), 0)
  {
    var lines := ConfigLines(content);
    sections := [];
    var current := false;
    for i := 0 to |lines|
      invariant RangesSoFar(toml, lines, sections, current, i)
    {
      if !IsHeader(lines[i]) {
        SkipLine(toml, lines, sections, current, i);
        continue;
      }
      if current { sections := Closed(sections, i); }
      var key := TrustSectionKey(toml, lines[i].text);
      current := key.Some?;
      if current {
        OpenRange(toml, lines, sections, i);
        sections := sections + [Range(key.value, i, |lines|)];
      } else {
        SkipLine(toml, lines, sections, false, i);
      }
    }
    if current { assert Closed(sections, |lines|) == sections; }
  }

  /** `current.end = end`, where `current` is the section pushed last. */
  function Closed(sections: seq<Range>, end: nat): seq<Range>
    requires sections != []
  {
    sections[|sections| - 1 := sections[|sections| - 1].(end := end)]
  }

  // ---------------------------------------------------------------- removal

  /** Line `k` belongs to a chosen section: the header at or before it is chosen. */
  predicate Dropped(fl: seq<Line>, chosen: seq<bool>, k: nat)
    requires k < |fl| == |chosen|
  {
    if IsHeader(fl[k]) then chosen[k] else k > 0 && Dropped(fl, chosen, k - 1)
  }

  function Survivors(fl: seq<Line>, chosen: seq<bool>, k: nat): seq<Line>
    requires k <= |fl| == |chosen|
    decreases |fl| - k
  {
    if k == |fl| then [] else (if Dropped(fl, chosen, k) then [] else [fl[k]]) + Survivors(fl, chosen, k + 1)
  }

  /** The same choice read from front to back: `dropping` is whether the line before was dropped. */
  function Kept(fl: seq<Line>, chosen: seq<bool>, dropping: bool): seq<Line>
    requires |fl| == |chosen|
  {
    if fl == [] then []
    else
      var d := if IsHeader(fl[0]) then chosen[0] else dropping;
      (if d then [] else [fl[0]]) + Kept(fl[1..], chosen[1..], d)
  }

  lemma {:induction false} SurvivorsAreKept(fl: seq<Line>, chosen: seq<bool>, k: nat)
    requires k <= |fl| == |chosen|
    ensures Survivors(fl, chosen, k) == Kept(fl[k..], chosen[k..], k > 0 && Dropped(fl, chosen, k - 1))
    decreases |fl| - k
  {
    if k < |fl| {
      SurvivorsAreKept(fl, chosen, k + 1);
      assert fl[k..][1..] == fl[k + 1..] && chosen[k..][1..] == chosen[k + 1..];
    }
  }

  /** The scanner says the same of every line that stays. Sections start where the scanner is
      back at its start, so a dropped one leaves no trace in its state: `now` is the state the
      rewritten file reaches where the original one is in state `st`. */
  lemma {:induction false} KeptFlags(ls: seq<string>, st: Scan, chosen: seq<bool>, dropping: bool, now: Scan)
    requires |ls| == |chosen| && st.Valid()
    requires now == if dropping then START else st
    ensures Flagged(Texts(Kept(Flagged(ls, st), chosen, dropping)), now) == Kept(Flagged(ls, st), chosen, dropping)
  {
    if ls != [] {
      var fl := Flagged(ls, st);
      var next := ScanLine(st, ls[0]);
      var d := if IsHeader(fl[0]) then chosen[0] else dropping;
      ScanKeepsValid(st, ls[0], 0);
      assert IsHeader(fl[0]) ==> st == START && now == START;
      assert fl[1..] == Flagged(ls[1..], next);
      if d {
        KeptFlags(ls[1..], next, chosen[1..], d, START);
        assert Kept(fl, chosen, dropping) == Kept(fl[1..], chosen[1..], d);
      } else {
        KeptFlags(ls[1..], next, chosen[1..], d, next);
        var rest := Kept(fl[1..], chosen[1..], d);
        assert Texts([fl[0]] + rest) == [ls[0]] + Texts(rest);
        assert ([ls[0]] + Texts(rest))[1..] == Texts(rest);
      }
    }
  }

  /** The lines up to the next header. */
  function Body(fl: seq<Line>): seq<string> {
    if fl == [] || IsHeader(fl[0]) then [] else [fl[0].text] + Body(fl[1..])
  }

  /** A section as its key with its header and body, verbatim. */
  type Section = (string, seq<string>)

  function Sections(toml: Toml, fl: seq<Line>): seq<Section> {
    if fl == [] then []
    else
      (if IsSectionAt(toml, fl[0])
       then [(TrustSectionKey(toml, fl[0].text).value, [fl[0].text] + Body(fl[1..]))] else [])
      + Sections(toml, fl[1..])
  }

  /** The sections nobody chose. */
  function Unchosen(toml: Toml, fl: seq<Line>, chosen: seq<bool>): seq<Section>
    requires |fl| == |chosen|
  {
    if fl == [] then []
    else
      (if IsSectionAt(toml, fl[0]) && !chosen[0]
       then [(TrustSectionKey(toml, fl[0].text).value, [fl[0].text] + Body(fl[1..]))] else [])
      + Unchosen(toml, fl[1..], chosen[1..])
  }

  lemma {:induction false} KeptBody(fl: seq<Line>, chosen: seq<bool>, dropping: bool)
    requires |fl| == |chosen|
    ensures Body(Kept(fl, chosen, dropping)) == if dropping then [] else Body(fl)
  {
    if fl != [] {
      var d := if IsHeader(fl[0]) then chosen[0] else dropping;
      KeptBody(fl[1..], chosen[1..], d);
      if !d { assert ([fl[0]] + Kept(fl[1..], chosen[1..], d))[1..] == Kept(fl[1..], chosen[1..], d); }
    }
  }

  /** Every other section stays, header and body, in order. */
  lemma {:induction false} KeptSections(toml: Toml, fl: seq<Line>, chosen: seq<bool>, dropping: bool)
    requires |fl| == |chosen|
    ensures Sections(toml, Kept(fl, chosen, dropping)) == Unchosen(toml, fl, chosen)
  {
    if fl != [] {
      var d := if IsHeader(fl[0]) then chosen[0] else dropping;
      var rest := Kept(fl[1..], chosen[1..], d);
      KeptSections(toml, fl[1..], chosen[1..], d);
      if !d {
        KeptBody(fl[1..], chosen[1..], d);
        assert Kept(fl, chosen, dropping) == [fl[0]] + rest;
        assert ([fl[0]] + rest)[1..] == rest;
      } else {
        assert Kept(fl, chosen, dropping) == rest;
      }
    }
  }

  /** `keep.fill(false, start, end)` for the ranges `drop` selects, then the filter. A dropped
      range whose body does not parse is refused. */
  method DropRanges(toml: Toml, fl: seq<Line>, ranges: seq<Range>, drop: seq<bool>)
    returns (r: Result<seq<string>, Error>)
    requires |drop| == |ranges| && RangesFit(ranges, |fl|)
    ensures r.Err? <==> exists i :: 0 <= i < |ranges| && drop[i] && !BodyParses(toml, fl, ranges[i])
    ensures r.Ok? ==> r.value == Uncovered(fl, ranges, drop, 0)
  {
    var keep := new bool[|fl|](_ => true);
    for i := 0 to |ranges|
      invariant forall k :: 0 <= k < |fl| ==> keep[k] == !Covers(ranges, drop, i, k)
      invariant forall j :: 0 <= j < i && drop[j] ==> BodyParses(toml, fl, ranges[j])
    {
      if drop[i] {
        if !BodyParses(toml, fl, ranges[i]) {
          return Err(InvalidCodexConfig);
        }
        Fill(keep, ranges[i].start, ranges[i].end);
      }
    }
    var out := Filter(fl, keep, ranges, drop);
    r := Ok(out);
  }

  method Fill(keep: array<bool>, start: nat, end: nat)
    requires start < end <= keep.Length
    modifies keep
    ensures forall k :: 0 <= k < keep.Length ==> keep[k] == (old(keep[k]) && !(start <= k < end))
  {
    for k := start to end
      invariant forall j :: 0 <= j < keep.Length ==> keep[j] == (old(keep[j]) && !(start <= j < k))
    {
      keep[k] := false;
    }
  }

  method Filter(fl: seq<Line>, keep: array<bool>, ghost ranges: seq<Range>, ghost drop: seq<bool>)
    returns (out: seq<string>)
    requires keep.Length == |fl| && |drop| == |ranges|
    requires forall k :: 0 <= k < |fl| ==> keep[k] == !Covers(ranges, drop, |ranges|, k)
    ensures out == Uncovered(fl, ranges, drop, 0)
  {
    out := [];
    for k := 0 to |fl|
      invariant out + Uncovered(fl, ranges, drop, k) == Uncovered(fl, ranges, drop, 0)
    {
      if keep[k] { out := out + [fl[k].text]; }
    }
  }

  predicate RangesFit(ranges: seq<Range>, n: nat) {
    forall i :: 0 <= i < |ranges| ==> ranges[i].start < ranges[i].end <= n
  }

  predicate BodyParses(toml: Toml, fl: seq<Line>, r: Range)
    requires r.start < r.end <= |fl|
  {
    toml.valid(Join(Texts(fl[r.start + 1..r.end])))
  }

  /** One of the first `n` ranges is selected and covers line `k`. */
  ghost predicate Covers(ranges: seq<Range>, drop: seq<bool>, n: nat, k: int)
    requires n <= |drop| == |ranges|
  {
    n > 0 && ((drop[n - 1] && ranges[n - 1].start <= k < ranges[n - 1].end) || Covers(ranges, drop, n - 1, k))
  }

  ghost function Uncovered(fl: seq<Line>, ranges: seq<Range>, drop: seq<bool>, k: nat): seq<string>
    requires k <= |fl| && |drop| == |ranges|
    decreases |fl| - k
  {
    if k == |fl| then []
    else (if Covers(ranges, drop, |ranges|, k) then [] else [fl[k].text]) + Uncovered(fl, ranges, drop, k + 1)
  }

  // ---------------------------------------------------------------- which ranges are dropped

  /** The header lines of the sections to drop: owned keys, where `scope` allows it. */
  function Chosen(toml: Toml, fl: seq<Line>, scope: seq<bool>, keys: set<string>): (r: seq<bool>)
    requires |scope| == |fl|
    ensures |r| == |fl| && forall k :: 0 <= k < |fl| ==> r[k] == IsOwned(toml, fl[k], scope[k], keys)
  {
    seq(|fl|, k requires 0 <= k < |fl| => IsOwned(toml, fl[k], scope[k], keys))
  }

  predicate IsOwned(toml: Toml, l: Line, scope: bool, keys: set<string>) {
    IsSectionAt(toml, l) && scope && TrustSectionKey(toml, l.text).value in keys
  }

  lemma {:induction false} CoversIff(ranges: seq<Range>, drop: seq<bool>, n: nat, k: int)
    requires n <= |drop| == |ranges|
    ensures Covers(ranges, drop, n, k) <==> exists i :: 0 <= i < n && drop[i] && ranges[i].start <= k < ranges[i].end
  {
    if n > 0 { CoversIff(ranges, drop, n - 1, k); }
  }

  lemma {:induction false} DroppedThrough(fl: seq<Line>, chosen: seq<bool>, h: nat, k: nat)
    requires h <= k < |fl| == |chosen| && IsHeader(fl[h]) && forall i :: h < i <= k ==> !IsHeader(fl[i])
    ensures Dropped(fl, chosen, k) == chosen[h]
  {
    if h < k { DroppedThrough(fl, chosen, h, k - 1); }
  }

  lemma {:induction false} DroppingHeader(fl: seq<Line>, chosen: seq<bool>, k: nat) returns (h: nat)
    requires k < |fl| == |chosen| && Dropped(fl, chosen, k)
    ensures h <= k && IsHeader(fl[h]) && chosen[h] && forall i :: h < i <= k ==> !IsHeader(fl[i])
  {
    if IsHeader(fl[k]) { h := k; } else { h := DroppingHeader(fl, chosen, k - 1); }
  }

  /** The ranges the code fills are the lines the pointwise reading drops. */
  lemma {:induction false} CoversIsDropped(toml: Toml, fl: seq<Line>, scope: seq<bool>, keys: set<string>,
        drop: seq<bool>, k: nat)
    requires k < |fl| == |scope|
    requires var ranges := RangesFrom(toml, fl, 0);
             |drop| == |ranges| && forall i :: 0 <= i < |ranges| ==>
               drop[i] == (0 <= ranges[i].start < |fl| && Chosen(toml, fl, scope, keys)[ranges[i].start])
    ensures Covers(RangesFrom(toml, fl, 0), drop, |drop|, k) == Dropped(fl, Chosen(toml, fl, scope, keys), k)
  {
    var ranges, chosen := RangesFrom(toml, fl, 0), Chosen(toml, fl, scope, keys);
    CoversIff(ranges, drop, |drop|, k);
    if Covers(ranges, drop, |drop|, k) {
      var i :| 0 <= i < |drop| && drop[i] && ranges[i].start <= k < ranges[i].end;
      RangesAreExact(toml, fl, 0, ranges[i]);
      DroppedThrough(fl, chosen, ranges[i].start, k);
    }
    if Dropped(fl, chosen, k) {
      var h := DroppingHeader(fl, chosen, k);
      var i := RangeIndex(toml, fl, h);
      assert drop[i] && ranges[i].start <= k < ranges[i].end;
    }
  }

  lemma {:induction false} UncoveredIsKept(toml: Toml, fl: seq<Line>, scope: seq<bool>, keys: set<string>,
                                           drop: seq<bool>, k: nat)
    requires k <= |fl| == |scope|
    requires var ranges := RangesFrom(toml, fl, 0);
             |drop| == |ranges| && forall i :: 0 <= i < |ranges| ==>
               drop[i] == (0 <= ranges[i].start < |fl| && Chosen(toml, fl, scope, keys)[ranges[i].start])
    ensures Uncovered(fl, RangesFrom(toml, fl, 0), drop, k) == Texts(Survivors(fl, Chosen(toml, fl, scope, keys), k))
    decreases |fl| - k
  {
    if k < |fl| {
      CoversIsDropped(toml, fl, scope, keys, drop, k);
      UncoveredIsKept(toml, fl, scope, keys, drop, k + 1);
      var chosen := Chosen(toml, fl, scope, keys);
      var rest := Survivors(fl, chosen, k + 1);
      if Dropped(fl, chosen, k) {
        assert Survivors(fl, chosen, k) == rest;
      } else {
        assert Survivors(fl, chosen, k) == [fl[k]] + rest && ([fl[k]] + rest)[1..] == rest;
      }
    }
  }

  // ---------------------------------------------------------------- the two removers

  /** A chosen section whose body the TOML parser refuses. */
  ghost predicate RefusedAt(toml: Toml, fl: seq<Line>, chosen: seq<bool>, k: nat)
    requires k < |fl| == |chosen|
  {
    chosen[k] && IsSectionAt(toml, fl[k]) && !BodyParses(toml, fl, RangeAt(toml, fl, k))
  }

  /** The rewritten text, or the refusal. */
  ghost predicate IsRewrite(r: Result<string, Error>, toml: Toml, fl: seq<Line>, chosen: seq<bool>)
    requires |fl| == |chosen|
  {
    r == if exists k :: 0 <= k < |fl| && RefusedAt(toml, fl, chosen, k) then Err(InvalidCodexConfig)
         else Ok(Join(Texts(Kept(fl, chosen, false))))
  }

  ghost predicate IsRangeOf(toml: Toml, fl: seq<Line>, r: Range) {
    r.start < |fl| && IsSectionAt(toml, fl[r.start]) && r == RangeAt(toml, fl, r.start)
  }

  lemma {:induction false} RangesAreSections(toml: Toml, fl: seq<Line>)
    ensures var ranges := RangesFrom(toml, fl, 0); forall i :: 0 <= i < |ranges| ==> IsRangeOf(toml, fl, ranges[i])
  {
    var ranges := RangesFrom(toml, fl, 0);
    forall i | 0 <= i < |ranges| ensures IsRangeOf(toml, fl, ranges[i]) {
      RangesAreExact(toml, fl, 0, ranges[i]);
    }
  }

  lemma {:induction false} RangeIndex(toml: Toml, fl: seq<Line>, k: nat) returns (i: nat)
    requires k < |fl| && IsSectionAt(toml, fl[k])
    ensures i < |RangesFrom(toml, fl, 0)| && RangesFrom(toml, fl, 0)[i] == RangeAt(toml, fl, k)
  {
    RangesAreExact(toml, fl, 0, RangeAt(toml, fl, k));
    i :| 0 <= i < |RangesFrom(toml, fl, 0)| && RangesFrom(toml, fl, 0)[i] == RangeAt(toml, fl, k);
  }

  /** What both removers do once they know the scope in which an owned key counts. */
  method RemoveSections(toml: Toml, content: string, scope: seq<bool>, keys: set<string>)
    returns (r: Result<string, Error>)
    requires |scope| == |Split(content)|
    ensures var fl := Flagged(Split(content), START);
            IsRewrite(r, toml, fl, Chosen(toml, fl, scope, keys))
  {
    ghost var fl := Flagged(Split(content), START);
    ghost var chosen := Chosen(toml, fl, scope, keys);
    var lines := ConfigLines(content);
    var ranges := TrustSectionRanges(toml, content);
    RangesAreSections(toml, fl);
    assert forall i :: 0 <= i < |ranges| ==> IsRangeOf(toml, fl, ranges[i]);
    var drop := seq(|ranges|, i requires 0 <= i < |ranges| && ranges[i].start < |scope| =>
                      scope[ranges[i].start] && ranges[i].key in keys);
    UncoveredIsKept(toml, fl, scope, keys, drop, 0);
    SurvivorsAreKept(fl, chosen, 0);
    var kept := DropRanges(toml, lines, ranges, drop);
    if kept.Err? {
      ghost var i :| 0 <= i < |ranges| && drop[i] && !BodyParses(toml, fl, ranges[i]);
      assert RefusedAt(toml, fl, chosen, ranges[i].start);
      return Err(InvalidCodexConfig);
    }
    forall k | 0 <= k < |fl| && chosen[k] ensures !RefusedAt(toml, fl, chosen, k) {
      var i := RangeIndex(toml, fl, k);
      assert drop[i];
    }
    assert fl[0..] == fl && chosen[0..] == chosen;
    r := Ok(Join(kept.value));
  }

  function Everywhere(n: nat): (r: seq<bool>)
    ensures |r| == n && forall i :: 0 <= i < n ==> r[i]
  {
    seq(n, i requires 0 <= i < n => true)
  }

  ghost function ExactlyChosen(toml: Toml, fl: seq<Line>, keys: set<string>): (r: seq<bool>)
    ensures |r| == |fl|
  {
    Chosen(toml, fl, Everywhere(|fl|), keys)
  }

  method RemoveExactTrustSections(toml: Toml, content: string, keys: set<string>) returns (r: Result<string, Error>)
    ensures var fl := Flagged(Split(content), START);
            IsRewrite(r, toml, fl, ExactlyChosen(toml, fl, keys))
  {
    if keys == {} {
      ghost var fl := Flagged(Split(content), START);
      KeepAll(fl, ExactlyChosen(toml, fl, keys), false);
      TextsOfFlagged(Split(content), START);
      JoinSplit(content);
      return Ok(content);
    }
    var ls := Split(content);
    r := RemoveSections(toml, content, Everywhere(|ls|), keys);
  }

  lemma {:induction false} KeepAll(fl: seq<Line>, chosen: seq<bool>, dropping: bool)
    requires |fl| == |chosen| && !dropping && forall k :: 0 <= k < |fl| ==> !chosen[k]
    ensures Kept(fl, chosen, dropping) == fl
  {
    if fl != [] { KeepAll(fl[1..], chosen[1..], false); }
  }

  // ---------------------------------------------------------------- what removal keeps

  /** Removing any choice of sections: the scanner says the same of every line that stays, and
      the sections of the new text are the unchosen ones, verbatim and in order. */
  lemma {:induction false} RemovalKeepsTheRest(toml: Toml, content: string, chosen: seq<bool>)
    requires |chosen| == |Split(content)|
    ensures var fl := Flagged(Split(content), START);
            var kept := Kept(fl, chosen, false);
            var now := Flagged(Split(Join(Texts(kept))), START);
            && (kept != [] ==> now == kept)
            && Sections(toml, now) == Unchosen(toml, fl, chosen)
  {
    var ls := Split(content);
    var fl := Flagged(ls, START);
    var kept := Kept(fl, chosen, false);
    KeptFlags(ls, START, chosen, false, START);
    KeptSections(toml, fl, chosen, false);
    if kept != [] {
      TextsOfFlagged(ls, START);
      KeptAreLines(fl, chosen, false);
      SplitJoin(Texts(kept));
    } else {
      assert Split(Join(Texts(kept))) == [""];
      assert Flagged([""], START) == [Line("", true)] + Flagged([], ScanLine(START, ""));
      assert Sections(toml, [Line("", true)]) == [];
    }
  }

  lemma {:induction false} KeptAreLines(fl: seq<Line>, chosen: seq<bool>, dropping: bool)
    requires |fl| == |chosen| && AreLines(Texts(fl))
    ensures AreLines(Texts(Kept(fl, chosen, dropping)))
  {
    if fl != [] {
      var d := if IsHeader(fl[0]) then chosen[0] else dropping;
      assert Texts(fl)[1..] == Texts(fl[1..]);
      assert AreLines(Texts(fl[1..]));
      KeptAreLines(fl[1..], chosen[1..], d);
      var rest := Kept(fl[1..], chosen[1..], d);
      if d {
        assert Kept(fl, chosen, dropping) == rest;
      } else {
        assert Kept(fl, chosen, dropping) == [fl[0]] + rest && ([fl[0]] + rest)[1..] == rest;
        assert IsLine(fl[0].text) by { assert Texts(fl)[0] == fl[0].text; }
      }
    }
  }

  /** Sections without the owned keys. */
  function Without(sections: seq<Section>, keys: set<string>): (r: seq<Section>)
    ensures forall s <- r :: s.0 !in keys
  {
    if sections == [] then []
    else (if sections[0].0 in keys then [] else [sections[0]]) + Without(sections[1..], keys)
  }

  lemma {:induction false} UnchosenIsWithout(toml: Toml, fl: seq<Line>, chosen: seq<bool>, keys: set<string>)
    requires |fl| == |chosen|
    requires forall k :: 0 <= k < |fl| ==> chosen[k] == IsOwned(toml, fl[k], true, keys)
    ensures Unchosen(toml, fl, chosen) == Without(Sections(toml, fl), keys)
  {
    if fl != [] {
      UnchosenIsWithout(toml, fl[1..], chosen[1..], keys);
      var rest := Sections(toml, fl[1..]);
      if IsSectionAt(toml, fl[0]) {
        var s: Section := (TrustSectionKey(toml, fl[0].text).value, [fl[0].text] + Body(fl[1..]));
        assert Sections(toml, fl) == [s] + rest && ([s] + rest)[1..] == rest;
        assert chosen[0] == (s.0 in keys);
      } else {
        assert Sections(toml, fl) == rest;
      }
    }
  }

  lemma {:induction false} SectionKeysAreListed(toml: Toml, fl: seq<Line>, k: nat)
    requires k < |fl| && IsSectionAt(toml, fl[k])
    ensures exists s <- Sections(toml, fl) :: s.0 == TrustSectionKey(toml, fl[k].text).value
  {
    if k == 0 {
      assert Sections(toml, fl)[0].0 == TrustSectionKey(toml, fl[0].text).value;
    } else {
      SectionKeysAreListed(toml, fl[1..], k - 1);
      var s :| s in Sections(toml, fl[1..]) && s.0 == TrustSectionKey(toml, fl[k].text).value;
      assert s in Sections(toml, fl);
    }
  }

  /** Removing a set of owned keys leaves exactly the sections of the other keys, and the
      result is a fixed point: removing the same keys again changes nothing. */
  lemma {:induction false} ExactRemovalIsIdempotent(toml: Toml, content: string, keys: set<string>)
    ensures var fl := Flagged(Split(content), START);
            var out := Join(Texts(Kept(fl, ExactlyChosen(toml, fl, keys), false)));
            var again := Flagged(Split(out), START);
            && Sections(toml, again) == Without(Sections(toml, fl), keys)
            && IsRewrite(Ok(out), toml, again, ExactlyChosen(toml, again, keys))
  {
    var fl := Flagged(Split(content), START);
    var chosen := ExactlyChosen(toml, fl, keys);
    var out := Join(Texts(Kept(fl, chosen, false)));
    var again := Flagged(Split(out), START);
    RemovalKeepsTheRest(toml, content, chosen);
    UnchosenIsWithout(toml, fl, chosen, keys);
    forall k | 0 <= k < |again| ensures !ExactlyChosen(toml, again, keys)[k] {
      if IsSectionAt(toml, again[k]) { SectionKeysAreListed(toml, again, k); }
    }
    KeepAll(again, ExactlyChosen(toml, again, keys), false);
    TextsOfFlagged(Split(out), START);
    JoinSplit(out);
  }

  // ---------------------------------------------------------------- the marker block

  function TrimmedEnd(text: string): string {
    if text != "" && IsSpace(text[|text| - 1]) then TrimmedEnd(text[..|text| - 1]) else text
  }

  /** The block's two comments. */
  datatype Marker = Marker(begin: string, end: string)

  function TrustMarker(name: string): Marker {
    Marker("# BEGIN " + name + " trust", "# END " + name + " trust")
  }

  predicate IsMarker(l: Line, comment: string) { l.editable && TrimmedEnd(Trimmed(l.text)) == comment }

  datatype Mark = Begin | End | Plain {
    /** Whether the lines after this one lie inside the block. */
    predicate After(inside: bool) { Begin? || (Plain? && inside) }
  }

  function MarkOf(l: Line, marker: Marker): Mark {
    if IsMarker(l, marker.begin) then Begin else if IsMarker(l, marker.end) then End else Plain
  }

  function Marks(fl: seq<Line>, marker: Marker): seq<Mark> { Map(l => MarkOf(l, marker), fl) }

  /** The lines between the markers. */
  function Between(marks: seq<Mark>, inside: bool): (r: seq<bool>)
    ensures |r| == |marks|
  {
    if marks == [] then [] else [inside && marks[0].Plain?] + Between(marks[1..], marks[0].After(inside))
  }

  function Membership(fl: seq<Line>, marker: Marker): (r: seq<bool>)
    ensures |r| == |fl|
  {
    Between(Marks(fl, marker), false)
  }

  method MarkerLineMembership(content: string, name: string) returns (r: seq<bool>)
    ensures r == Membership(Flagged(Split(content), START), TrustMarker(name))
  {
    var lines := ConfigLines(content);
    r := BetweenMarks(Marks(lines, TrustMarker(name)));
  }

  /** The map over the lines, with `inside` as its state. */
  method BetweenMarks(marks: seq<Mark>) returns (r: seq<bool>)
    ensures r == Between(marks, false)
  {
    var inside := false;
    r := [];
    for k := 0 to |marks|
      invariant r + Between(marks[k..], inside) == Between(marks, false)
    {
      BetweenFrom(marks, k, inside);
      AppendAssociates(r, [inside && marks[k].Plain?], Between(marks[k + 1..], marks[k].After(inside)));
      r := r + [inside && marks[k].Plain?];
      inside := if marks[k].Begin? then true else if marks[k].End? then false else inside;
    }
    assert marks[|marks|..] == [];
  }

  lemma {:induction false} BetweenFrom(marks: seq<Mark>, k: nat, inside: bool)
    requires k < |marks|
    ensures Between(marks[k..], inside)
         == [inside && marks[k].Plain?] + Between(marks[k + 1..], marks[k].After(inside))
  {
    assert marks[k..][1..] == marks[k + 1..];
  }

  ghost function MarkedChosen(toml: Toml, fl: seq<Line>, marker: Marker, keys: set<string>): (r: seq<bool>)
    ensures |r| == |fl|
  {
    Chosen(toml, fl, Membership(fl, marker), keys)
  }

  method RemoveMarkedTrustSections(toml: Toml, content: string, name: string, keys: set<string>)
    returns (r: Result<string, Error>)
    ensures var fl := Flagged(Split(content), START);
            IsRewrite(r, toml, fl, MarkedChosen(toml, fl, TrustMarker(name), keys))
  {
    if keys == {} {
      ghost var fl := Flagged(Split(content), START);
      KeepAll(fl, MarkedChosen(toml, fl, TrustMarker(name), keys), false);
      TextsOfFlagged(Split(content), START);
      JoinSplit(content);
      return Ok(content);
    }
    var inMarker := MarkerLineMembership(content, name);
    r := RemoveSections(toml, content, inMarker, keys);
  }

  // ---------------------------------------------------------------- what a second removal would take

  /** Line `i` is a BEGIN that stays, and the marker lines from there to `p` are dropped. */
  predicate Opens(marks: seq<Mark>, drops: seq<bool>, i: nat, p: nat)
    requires i < p <= |marks| == |drops|
  {
    marks[i].Begin? && !drops[i] && forall m :: i < m < p && !marks[m].Plain? ==> drops[m]
  }

  /** The END `e` of a block left open is dropped, and the owned header `k` that follows it, with
      no marker line between, stays. */
  predicate DrawnIn(marks: seq<Mark>, drops: seq<bool>, owned: seq<bool>, i: nat, e: nat, k: nat)
    requires |marks| == |drops| == |owned|
  {
    && i < e < k < |marks|
    && Opens(marks, drops, i, e)
    && marks[e].End? && drops[e]
    && (forall m :: e < m <= k ==> marks[m].Plain?)
    && owned[k] && !drops[k]
  }

  ghost predicate AnyDrawnIn(marks: seq<Mark>, drops: seq<bool>, owned: seq<bool>)
    requires |marks| == |drops| == |owned|
  {
    exists i: nat, e: nat, k: nat :: DrawnIn(marks, drops, owned, i, e, k)
  }

  function Drops(fl: seq<Line>, chosen: seq<bool>): (r: seq<bool>)
    requires |fl| == |chosen|
    ensures |r| == |fl| && forall k :: 0 <= k < |fl| ==> r[k] == Dropped(fl, chosen, k)
  {
    seq(|fl|, k requires 0 <= k < |fl| => Dropped(fl, chosen, k))
  }

  function Owned(toml: Toml, fl: seq<Line>, keys: set<string>): seq<bool> {
    Map(l => IsOwned(toml, l, true, keys), fl)
  }

  /** What the removal of marked sections leaves has an owned header inside the block. */
  ghost predicate DrawsIn(toml: Toml, fl: seq<Line>, marker: Marker, keys: set<string>) {
    AnyDrawnIn(Marks(fl, marker), Drops(fl, MarkedChosen(toml, fl, marker, keys)), Owned(toml, fl, keys))
  }

  /** Whether the last marker line before `p` that stays is a BEGIN. */
  function OpenAt(marks: seq<Mark>, drops: seq<bool>, p: nat): bool
    requires p <= |marks| == |drops|
  {
    p > 0 && if drops[p - 1] then OpenAt(marks, drops, p - 1) else marks[p - 1].After(OpenAt(marks, drops, p - 1))
  }

  lemma {:induction false} OpenAtIff(marks: seq<Mark>, drops: seq<bool>, p: nat)
    requires p <= |marks| == |drops|
    ensures OpenAt(marks, drops, p) <==> exists i :: 0 <= i < p && Opens(marks, drops, i, p)
  {
    if p > 0 {
      var q := p - 1;
      OpenAtIff(marks, drops, q);
      if OpenAt(marks, drops, p) {
        if !drops[q] && marks[q].Begin? {
          assert Opens(marks, drops, q, p);
        } else {
          var i :| 0 <= i < q && Opens(marks, drops, i, q);
          assert Opens(marks, drops, i, p);
        }
      }
      if i :| 0 <= i < p && Opens(marks, drops, i, p) {
        if i < q { assert Opens(marks, drops, i, q); }
      }
    }
  }

  lemma {:induction false} BetweenAt(marks: seq<Mark>, none: seq<bool>, p: nat, k: nat)
    requires p <= k < |marks| == |none| && forall i :: 0 <= i < |none| ==> !none[i]
    ensures Between(marks[p..], OpenAt(marks, none, p))[k - p] == (OpenAt(marks, none, k) && marks[k].Plain?)
    decreases k - p
  {
    if p < k {
      BetweenAt(marks, none, p + 1, k);
      assert marks[p..][1..] == marks[p + 1..];
    }
  }

  /** The last marker line before `k`, given one at `i`. */
  lemma {:induction false} LastMark(marks: seq<Mark>, i: nat, k: nat) returns (e: nat)
    requires i < k < |marks| && !marks[i].Plain?
    ensures i <= e < k && !marks[e].Plain? && forall m :: e < m < k ==> marks[m].Plain?
  {
    if !marks[k - 1].Plain? { e := k - 1; } else { e := LastMark(marks, i, k - 1); }
  }

  /** A line that stays outside the block, and has an open BEGIN before it once others are
      dropped, lost an END. */
  lemma {:induction false} AnEndIsLost(marks: seq<Mark>, drops: seq<bool>, i: nat, k: nat) returns (e: nat)
    requires i < k < |marks| == |drops| && Opens(marks, drops, i, k) && marks[k].Plain?
    requires !Between(marks, false)[k]
    ensures i < e < k && marks[e].End? && drops[e] && forall m :: e < m <= k ==> marks[m].Plain?
  {
    var none := seq(|marks|, _ => false);
    BetweenAt(marks, none, 0, k);
    assert marks[0..] == marks;
    OpenAtIff(marks, none, k);
    e := LastMark(marks, i, k);
    assert marks[e].Begin? ==> Opens(marks, none, e, k);
  }

  /** Line `k` stays, is owned, and lies inside the block once others are dropped. */
  predicate TakenAt(marks: seq<Mark>, drops: seq<bool>, owned: seq<bool>, k: nat)
    requires k < |marks| == |drops| == |owned|
  {
    !drops[k] && owned[k] && marks[k].Plain? && OpenAt(marks, drops, k)
  }

  lemma {:induction false} TakenIffDrawnIn(marks: seq<Mark>, drops: seq<bool>, owned: seq<bool>)
    requires |marks| == |drops| == |owned|
    requires forall k :: 0 <= k < |marks| && owned[k] && !drops[k] ==> !Between(marks, false)[k]
    ensures AnyDrawnIn(marks, drops, owned) <==> exists k :: 0 <= k < |marks| && TakenAt(marks, drops, owned, k)
  {
    if k :| 0 <= k < |marks| && TakenAt(marks, drops, owned, k) {
      OpenAtIff(marks, drops, k);
      var i :| 0 <= i < k && Opens(marks, drops, i, k);
      var e := AnEndIsLost(marks, drops, i, k);
      assert DrawnIn(marks, drops, owned, i, e, k);
    }
    if i: nat, e: nat, k: nat :| DrawnIn(marks, drops, owned, i, e, k) {
      assert Opens(marks, drops, i, k);
      OpenAtIff(marks, drops, k);
      assert TakenAt(marks, drops, owned, k);
    }
  }

  /** What is left of a list. */
  function Left<T>(xs: seq<T>, drops: seq<bool>, p: nat): seq<T>
    requires p <= |xs| == |drops|
    decreases |xs| - p
  {
    if p == |xs| then [] else (if drops[p] then [] else [xs[p]]) + Left(xs, drops, p + 1)
  }

  lemma {:induction false} LeftMap<S, T>(f: S -> T, xs: seq<S>, drops: seq<bool>, p: nat)
    requires p <= |xs| == |drops|
    ensures Map(f, Left(xs, drops, p)) == Left(Map(f, xs), drops, p)
    decreases |xs| - p
  {
    if p < |xs| {
      LeftMap(f, xs, drops, p + 1);
      MapConcat(f, if drops[p] then [] else [xs[p]], Left(xs, drops, p + 1));
    }
  }

  lemma {:induction false} LeftIsSurvivors(fl: seq<Line>, chosen: seq<bool>, p: nat)
    requires p <= |fl| == |chosen|
    ensures Left(fl, Drops(fl, chosen), p) == Survivors(fl, chosen, p)
    decreases |fl| - p
  {
    if p < |fl| { LeftIsSurvivors(fl, chosen, p + 1); }
  }

  predicate Disjoint(a: seq<bool>, b: seq<bool>)
    requires |a| == |b|
  {
    forall k :: 0 <= k < |a| ==> !(a[k] && b[k])
  }

  lemma {:induction false} DisjointCons(x: bool, a: seq<bool>, y: bool, b: seq<bool>)
    requires |a| == |b|
    ensures Disjoint([x] + a, [y] + b) <==> !(x && y) && Disjoint(a, b)
  {
    var xa, yb := [x] + a, [y] + b;
    assert forall k :: 0 <= k < |a| ==> xa[k + 1] == a[k] && yb[k + 1] == b[k];
    if Disjoint(xa, yb) {
      assert !(xa[0] && yb[0]);
      forall k | 0 <= k < |a| ensures !(a[k] && b[k]) { assert !(xa[k + 1] && yb[k + 1]); }
    }
    if !(x && y) && Disjoint(a, b) {
      forall k | 0 <= k < |xa| ensures !(xa[k] && yb[k]) {
        if k > 0 { assert !(a[k - 1] && b[k - 1]); }
      }
    }
  }

  /** No owned header lies between the markers. */
  predicate NoneTaken(marks: seq<Mark>, owned: seq<bool>, inside: bool)
    requires |marks| == |owned|
  {
    Disjoint(owned, Between(marks, inside))
  }

  lemma {:induction false} NoneTakenCons(m: Mark, marks: seq<Mark>, o: bool, owned: seq<bool>, inside: bool)
    requires |marks| == |owned|
    ensures NoneTaken([m] + marks, [o] + owned, inside)
       <==> !(o && inside && m.Plain?) && NoneTaken(marks, owned, m.After(inside))
  {
    assert ([m] + marks)[1..] == marks;
    DisjointCons(o, owned, inside && m.Plain?, Between(marks, m.After(inside)));
  }

  lemma {:induction false} NoneTakenIff(marks: seq<Mark>, drops: seq<bool>, owned: seq<bool>, p: nat)
    requires p <= |marks| == |drops| == |owned|
    ensures |Left(marks, drops, p)| == |Left(owned, drops, p)|
    ensures NoneTaken(Left(marks, drops, p), Left(owned, drops, p), OpenAt(marks, drops, p))
       <==> forall k :: p <= k < |marks| ==> !TakenAt(marks, drops, owned, k)
    decreases |marks| - p
  {
    if p < |marks| {
      NoneTakenIff(marks, drops, owned, p + 1);
      var ms, os := Left(marks, drops, p + 1), Left(owned, drops, p + 1);
      if drops[p] {
        assert Left(marks, drops, p) == ms && Left(owned, drops, p) == os;
      } else {
        assert Left(marks, drops, p) == [marks[p]] + ms && Left(owned, drops, p) == [owned[p]] + os;
        NoneTakenCons(marks[p], ms, owned[p], os, OpenAt(marks, drops, p));
        assert OpenAt(marks, drops, p + 1) == marks[p].After(OpenAt(marks, drops, p));
        assert NoneTaken(Left(marks, drops, p), Left(owned, drops, p), OpenAt(marks, drops, p))
          <==> !TakenAt(marks, drops, owned, p) && NoneTaken(ms, os, OpenAt(marks, drops, p + 1));
      }
    }
  }

  ghost predicate NoneChosen(toml: Toml, fl: seq<Line>, marker: Marker, keys: set<string>) {
    forall k :: 0 <= k < |fl| ==> !MarkedChosen(toml, fl, marker, keys)[k]
  }

  lemma {:induction false} NoneChosenIsNoneTaken(toml: Toml, fl: seq<Line>, marker: Marker, keys: set<string>)
    ensures NoneChosen(toml, fl, marker, keys) <==> NoneTaken(Marks(fl, marker), Owned(toml, fl, keys), false)
  {
    var chosen, owned, between := MarkedChosen(toml, fl, marker, keys), Owned(toml, fl, keys), Membership(fl, marker);
    assert forall k :: 0 <= k < |fl| ==> chosen[k] == (owned[k] && between[k]);
  }

  lemma {:induction false} NoneChosenMeaning(toml: Toml, fl: seq<Line>, marker: Marker, keys: set<string>)
    ensures NoneChosen(toml, Kept(fl, MarkedChosen(toml, fl, marker, keys), false), marker, keys)
       <==> !DrawsIn(toml, fl, marker, keys)
  {
    var chosen := MarkedChosen(toml, fl, marker, keys);
    var drops, marks, owned := Drops(fl, chosen), Marks(fl, marker), Owned(toml, fl, keys);
    SurvivorsAreKept(fl, chosen, 0);
    assert fl[0..] == fl && chosen[0..] == chosen;
    LeftIsSurvivors(fl, chosen, 0);
    LeftMap(l => MarkOf(l, marker), fl, drops, 0);
    LeftMap(l => IsOwned(toml, l, true, keys), fl, drops, 0);
    NoneChosenIsNoneTaken(toml, Kept(fl, chosen, false), marker, keys);
    NoneTakenIff(marks, drops, owned, 0);
    KeptIsOutside(toml, fl, marker, keys);
    TakenIffDrawnIn(marks, drops, owned);
  }

  lemma {:induction false} KeptIsOutside(toml: Toml, fl: seq<Line>, marker: Marker, keys: set<string>)
    ensures var drops := Drops(fl, MarkedChosen(toml, fl, marker, keys));
            forall k :: 0 <= k < |fl| && Owned(toml, fl, keys)[k] && !drops[k] ==> !Membership(fl, marker)[k]
  {
  }

  function TotalLength(ls: seq<string>): nat {
    if ls == [] then 0 else |ls[0]| + 1 + TotalLength(ls[1..])
  }

  lemma {:induction false} JoinLength(ls: seq<string>)
    ensures |Join(ls)| == if ls == [] then 0 else TotalLength(ls) - 1
  {
    if |ls| > 1 { JoinLength(ls[1..]); }
  }

  lemma {:induction false} KeptLength(fl: seq<Line>, chosen: seq<bool>, dropping: bool)
    requires |fl| == |chosen|
    ensures TotalLength(Texts(Kept(fl, chosen, dropping))) <= TotalLength(Texts(fl))
    ensures (exists k :: 0 <= k < |fl| && chosen[k] && IsHeader(fl[k])) ==>
              TotalLength(Texts(Kept(fl, chosen, dropping))) + 2 <= TotalLength(Texts(fl))
  {
    if fl != [] {
      var d := if IsHeader(fl[0]) then chosen[0] else dropping;
      var rest := Kept(fl[1..], chosen[1..], d);
      KeptLength(fl[1..], chosen[1..], d);
      if d {
        assert Kept(fl, chosen, dropping) == rest;
      } else {
        assert Kept(fl, chosen, dropping) == [fl[0]] + rest && ([fl[0]] + rest)[1..] == rest;
      }
      if k :| 0 <= k < |fl| && chosen[k] && IsHeader(fl[k]) {
        if k > 0 { assert chosen[1..][k - 1] && IsHeader(fl[1..][k - 1]); }
      }
    }
  }

  /** A rewrite that drops a section is shorter, so it is not the text it was made from. */
  lemma {:induction false} DroppingChanges(fl: seq<Line>, chosen: seq<bool>, k: nat)
    requires k < |fl| == |chosen| && chosen[k] && IsHeader(fl[k])
    ensures |Join(Texts(Kept(fl, chosen, false)))| < |Join(Texts(fl))|
  {
    KeptLength(fl, chosen, false);
    JoinLength(Texts(fl));
    JoinLength(Texts(Kept(fl, chosen, false)));
  }

  /** An END comment belongs to the section above it, so removing that section can draw a later
      owned section into the block. Removing marked sections twice is the same as removing them
      once exactly when no removed section holds the END of a block left open that an owned
      section follows before the next marker line. */
  lemma {:induction false} MarkedRemovalIdempotentIff(toml: Toml, content: string, marker: Marker, keys: set<string>)
    ensures var fl := Flagged(Split(content), START);
            var chosen := MarkedChosen(toml, fl, marker, keys);
            var out := Join(Texts(Kept(fl, chosen, false)));
            var again := Flagged(Split(out), START);
            IsRewrite(Ok(out), toml, again, MarkedChosen(toml, again, marker, keys))
            <==> !DrawsIn(toml, fl, marker, keys)
  {
    var fl := Flagged(Split(content), START);
    var chosen := MarkedChosen(toml, fl, marker, keys);
    var kept := Kept(fl, chosen, false);
    var out := Join(Texts(kept));
    var again := Flagged(Split(out), START);
    RemovalKeepsTheRest(toml, content, chosen);
    NoneChosenMeaning(toml, fl, marker, keys);
    if kept == [] { EmptyHasNoSections(toml); }
    UnchangedIff(toml, out, MarkedChosen(toml, again, marker, keys));
  }

  /** A removal leaves the text as it is exactly when nothing is chosen. */
  lemma {:induction false} UnchangedIff(toml: Toml, content: string, chosen: seq<bool>)
    requires |chosen| == |Split(content)|
    requires forall k :: 0 <= k < |chosen| && chosen[k] ==> IsHeader(Flagged(Split(content), START)[k])
    ensures IsRewrite(Ok(content), toml, Flagged(Split(content), START), chosen)
       <==> forall k :: 0 <= k < |chosen| ==> !chosen[k]
  {
    var fl := Flagged(Split(content), START);
    TextsOfFlagged(Split(content), START);
    JoinSplit(content);
    if k :| 0 <= k < |chosen| && chosen[k] { DroppingChanges(fl, chosen, k); } else { KeepAll(fl, chosen, false); }
  }

  lemma {:induction false} EmptyHasNoSections(toml: Toml)
    ensures Flagged(Split(Join([])), START) == [Line("", true)]
    ensures !IsHeader(Line("", true))
  {
    assert Flagged([""], START) == [Line("", true)] + Flagged([], ScanLine(START, ""));
  }

  /** The text of four lines, and what removing twice does to it. */
  ghost predicate Cascades(toml: Toml, b: string, s: string, e: string, t: string, marker: Marker, keys: set<string>) {
    CascadesOn(toml, Flagged(Split(Join([b, s, e, t])), START), [b, t], marker, keys)
  }

  ghost predicate CascadesOn(toml: Toml, fl: seq<Line>, left: seq<string>, marker: Marker, keys: set<string>) {
    var chosen := MarkedChosen(toml, fl, marker, keys);
    Texts(Kept(fl, chosen, false)) == left && DrawsIn(toml, fl, marker, keys)
  }

  lemma {:induction false} CascadeText(toml: Toml, texts: seq<string>, fl: seq<Line>, marker: Marker,
        keys: set<string>)
    requires fl == Flagged(Split(Join(texts)), START)
    requires |fl| == 4
    requires IsMarker(fl[0], marker.begin) && !IsHeader(fl[0])
    requires IsMarker(fl[2], marker.end) && !IsMarker(fl[2], marker.begin) && !IsHeader(fl[2])
    requires IsOwned(toml, fl[1], true, keys) && !IsMarker(fl[1], marker.begin) && !IsMarker(fl[1], marker.end)
    requires IsOwned(toml, fl[3], true, keys) && !IsMarker(fl[3], marker.begin) && !IsMarker(fl[3], marker.end)
    ensures CascadesOn(toml, Flagged(Split(Join(texts)), START), [fl[0].text, fl[3].text], marker, keys)
  {
    FourLines(toml, fl, marker, keys);
    Cascade(toml, fl, marker, keys);
  }

  /** The case that fails: the second owned table is outside the block until the first is removed. */
  lemma {:induction false} MarkedRemovalCanCascade() returns (toml: Toml, b: string, s: string, e: string, t: string)
    ensures b == "# BEGIN m trust" && s == "[a]" && e == "# END m trust" && t == "[b]"
    ensures Cascades(toml, b, s, e, t, TrustMarker("m"), {s, t})
  {
    toml := Toml(h => Some(h), _ => true);
    b, s, e, t := "# BEGIN m trust", "[a]", "# END m trust", "[b]";
    PlainEnds(b);
    PlainEnds(s);
    PlainEnds(e);
    PlainEnds(t);
    ExampleFlags(b, s, e, t);
    var fl := [Line(b, true), Line(s, true), Line(e, true), Line(t, true)];
    CascadeText(toml, [b, s, e, t], fl, TrustMarker("m"), {s, t});
  }

  lemma {:induction false} PlainEnds(text: string)
    requires text != "" && !IsSpace(text[0]) && !IsSpace(text[|text| - 1])
    ensures Trimmed(text) == text && TrimmedEnd(text) == text
  {
  }

  lemma {:induction false} ExampleFlags(b: string, s: string, e: string, t: string)
    requires IsLine(b) && IsLine(s) && IsLine(e) && IsLine(t)
    requires b != "" && b[0] == '#' && e != "" && e[0] == '#' && s == "[a]"
    ensures Flagged(Split(Join([b, s, e, t])), START)
         == [Line(b, true), Line(s, true), Line(e, true), Line(t, true)]
  {
    SplitJoin([b, s, e, t]);
    BracketLine();
    var ls := [b, s, e, t];
    assert ScanLine(START, b) == START && ScanLine(START, e) == START;
    assert Flagged(ls[1..][1..][1..], START) == [Line(t, true)] + Flagged([], ScanLine(START, t));
    assert Flagged(ls[1..][1..], START) == [Line(e, true)] + Flagged(ls[1..][1..][1..], START);
    assert Flagged(ls[1..], START) == [Line(s, true)] + Flagged(ls[1..][1..], START);
  }

  lemma {:induction false} CascadeMarks()
    ensures var marks := [Begin, Plain, End, Plain];
            && Between(marks, false) == [false, true, false, false]
            && DrawnIn(marks, [false, true, true, false], [false, true, false, true], 0, 2, 3)
  {
    var marks := [Begin, Plain, End, Plain];
    BetweenFrom(marks, 0, false);
    BetweenFrom(marks, 1, true);
    BetweenFrom(marks, 2, true);
    BetweenFrom(marks, 3, false);
    assert marks[0..] == marks && Between(marks[4..], false) == [];
  }

  lemma {:induction false} SecondAndThirdGo(fl: seq<Line>, chosen: seq<bool>)
    requires |fl| == 4 && chosen == [false, true, false, false]
    requires !IsHeader(fl[0]) && IsHeader(fl[1]) && !IsHeader(fl[2]) && IsHeader(fl[3])
    ensures Drops(fl, chosen) == [false, true, true, false]
    ensures Texts(Kept(fl, chosen, false)) == [fl[0].text, fl[3].text]
  {
    var drops := Drops(fl, chosen);
    assert !Dropped(fl, chosen, 0) && Dropped(fl, chosen, 1) && Dropped(fl, chosen, 2) && !Dropped(fl, chosen, 3);
    SurvivorsAreKept(fl, chosen, 0);
    assert fl[0..] == fl && chosen[0..] == chosen;
    assert Survivors(fl, chosen, 1) == Survivors(fl, chosen, 3) == [fl[3]];
    assert Survivors(fl, chosen, 0) == [fl[0], fl[3]];
    assert [fl[0], fl[3]][1..] == [fl[3]] && [fl[3]][1..] == [];
    assert Texts([fl[3]]) == [fl[3].text] + Texts([]);
  }

  lemma {:induction false} FourLines(toml: Toml, fl: seq<Line>, marker: Marker, keys: set<string>)
    requires |fl| == 4
    requires IsMarker(fl[0], marker.begin) && !IsHeader(fl[0])
    requires IsMarker(fl[2], marker.end) && !IsMarker(fl[2], marker.begin) && !IsHeader(fl[2])
    requires IsOwned(toml, fl[1], true, keys) && !IsMarker(fl[1], marker.begin) && !IsMarker(fl[1], marker.end)
    requires IsOwned(toml, fl[3], true, keys) && !IsMarker(fl[3], marker.begin) && !IsMarker(fl[3], marker.end)
    ensures Marks(fl, marker) == [Begin, Plain, End, Plain]
    ensures Owned(toml, fl, keys) == [false, true, false, true]
  {
  }

  /** BEGIN, an owned table, END, an owned table: the END goes with the first table. */
  lemma {:induction false} Cascade(toml: Toml, fl: seq<Line>, marker: Marker, keys: set<string>)
    requires |fl| == 4 && Marks(fl, marker) == [Begin, Plain, End, Plain]
    requires Owned(toml, fl, keys) == [false, true, false, true] && !IsHeader(fl[0]) && !IsHeader(fl[2])
    ensures CascadesOn(toml, fl, [fl[0].text, fl[3].text], marker, keys)
  {
    CascadeMarks();
    var chosen, owned, between := MarkedChosen(toml, fl, marker, keys), Owned(toml, fl, keys), Membership(fl, marker);
    OwnedAndBetween(toml, fl, marker, keys);
    assert chosen == [false, true, false, false];
    assert owned[1] && owned[3];
    SecondAndThirdGo(fl, chosen);
  }

  lemma {:induction false} OwnedAndBetween(toml: Toml, fl: seq<Line>, marker: Marker, keys: set<string>)
    ensures var owned := Owned(toml, fl, keys);
            && |owned| == |fl|
            && (forall k :: 0 <= k < |fl| ==>
                  MarkedChosen(toml, fl, marker, keys)[k] == (owned[k] && Membership(fl, marker)[k]))
            && forall k :: 0 <= k < |fl| && owned[k] ==> IsHeader(fl[k])
  {
  }

  lemma {:induction false} BracketLine()
    ensures ScanLine(START, "[a]") == START
  {
    var text, open := "[a]", Scan(None, false, 1);
    assert ScanFrom(open, text, 2) == ScanFrom(START, text, 3);
    assert ScanFrom(open, text, 1) == ScanFrom(open, text, 2);
  }
}
