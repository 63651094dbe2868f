/** What the cross-line scanner of `TrustSections` makes of TOML, said in terms of TOML: a line is
    written piece by piece (plain characters, brackets, strings with escapes) and may end in a
    comment or inside a multi-line string. The scanner ends such a line where a reader of TOML does. */
module TrustScanner {
  import opened Wrappers
  import opened TrustSections

  /** One character of a string, or a backslash and the character it escapes. */
  datatype Unit = Char(c: char) | Escape(c: char)

  datatype Piece =
    | Plain(c: char)
    | Open(c: char)
    | Close(c: char)
    | Quoted(q: char, units: seq<Unit>)
    | Multi(q: char, units: seq<Unit>)

  datatype End = Done | Comment(body: string) | Unclosed(q: char, units: seq<Unit>)

  predicate IsQuote(c: char) { c == '"' || c == '\'' }

  predicate IsUnit(q: char, u: Unit) {
    match u
    case Char(c) => c != q && (q == '"' ==> c != '\\')
    case Escape(_) => q == '"'
  }

  predicate AreUnits(q: char, us: seq<Unit>) { IsQuote(q) && forall k :: 0 <= k < |us| ==> IsUnit(q, us[k]) }

  function UnitText(us: seq<Unit>): string {
    if us == [] then "" else (match us[0] case Char(c) => [c] case Escape(c) => ['\\', c]) + UnitText(us[1..])
  }

  function PieceText(p: Piece): string {
    match p
    case Plain(c) => [c]
    case Open(c) => [c]
    case Close(c) => [c]
    case Quoted(q, us) => [q] + UnitText(us) + [q]
    case Multi(q, us) => [q, q, q] + UnitText(us) + [q, q, q]
  }

  function EndText(e: End): string {
    match e
    case Done => ""
    case Comment(body) => "#" + body
    case Unclosed(q, us) => [q, q, q] + UnitText(us)
  }

  function LineText(ps: seq<Piece>, e: End): string {
    if ps == [] then EndText(e) else PieceText(ps[0]) + LineText(ps[1..], e)
  }

  predicate StartsWith(text: string, c: char) { text != "" && text[0] == c }

  /** The piece is well formed, and what follows does not lengthen its closing quotes. */
  predicate IsPiece(p: Piece, rest: string) {
    match p
    case Plain(c) => !IsQuote(c) && c !in "#[]{}"
    case Open(c) => c in "[{"
    case Close(c) => c in "]}"
    case Quoted(q, us) => AreUnits(q, us) && (us == [] ==> !StartsWith(rest, q))
    case Multi(q, us) => AreUnits(q, us) && !StartsWith(rest, q)
  }

  predicate IsLineOf(ps: seq<Piece>, e: End) {
    if ps == [] then e.Unclosed? ==> AreUnits(e.q, e.units)
    else IsPiece(ps[0], LineText(ps[1..], e)) && IsLineOf(ps[1..], e)
  }

  /** Opening brackets less closing ones, those inside strings and comments not counted. */
  function Net(ps: seq<Piece>): int {
    if ps == [] then 0 else (if ps[0].Open? then 1 else if ps[0].Close? then -1 else 0) + Net(ps[1..])
  }

  function StateAt(e: End, depth: int): Scan {
    if e.Unclosed? then Scan(Some(e.q), true, depth) else Scan(None, false, depth)
  }

  // ---------------------------------------------------------------- the scanner on the rest of a line

  lemma {:induction false} RunShifts(text: string, i: nat)
    requires i < |text|
    ensures LastOfRun(text, i) == i + LastOfRun(text[i..], 0)
    decreases |text| - i
  {
    RunFrom(text, i, i);
  }

  lemma {:induction false} RunFrom(text: string, i: nat, k: nat)
    requires i <= k < |text|
    ensures LastOfRun(text, k) == i + LastOfRun(text[i..], k - i)
    decreases |text| - k
  {
    if k + 1 < |text| && text[k + 1] == text[k] { RunFrom(text, i, k + 1); }
  }

  /** Scanning goes by what is left of the line alone. */
  lemma {:induction false} ScanShifts(st: Scan, text: string, o: nat, i: nat)
    requires o <= i && o <= |text|
    ensures ScanFrom(st, text, i) == ScanFrom(st, text[o..], i - o)
    decreases |text| - i
  {
    if i < |text| {
      var ch, t := text[i], text[o..];
      assert t[i - o] == ch && Tripled(text, i) == Tripled(t, i - o);
      match st.quote
      case Some(q) =>
        if q == '"' && ch == '\\' { ScanShifts(st, text, o, i + 2); }
        else if ch != q { ScanShifts(st, text, o, i + 1); }
        else if !st.multiline { ScanShifts(st.(quote := None), text, o, i + 1); }
        else if !Tripled(text, i) { ScanShifts(st, text, o, i + 1); }
        else {
          RunFrom(text, o, i);
          ScanShifts(Scan(None, false, st.depth), text, o, LastOfRun(text, i) + 1);
        }
      case None =>
        if ch == '#' {}
        else if ch == '"' || ch == '\'' {
          ScanShifts(Scan(Some(ch), Tripled(text, i), st.depth), text, o, if Tripled(text, i) then i + 3 else i + 1);
        }
        else if ch == '[' || ch == '{' { ScanShifts(st.(depth := st.depth + 1), text, o, i + 1); }
        else if ch == ']' || ch == '}' { ScanShifts(st.(depth := st.depth - 1), text, o, i + 1); }
        else { ScanShifts(st, text, o, i + 1); }
    }
  }

  lemma {:induction false} ScanAfter(st: Scan, head: string, rest: string)
    ensures ScanFrom(st, head + rest, |head|) == ScanLine(st, rest)
  {
    ScanShifts(st, head + rest, |head|, |head|);
    assert (head + rest)[|head|..] == rest;
  }

  lemma {:induction false} ScanUnit(st: Scan, q: char, u: Unit, rest: string)
    requires IsQuote(q) && IsUnit(q, u) && st.quote == Some(q)
    ensures ScanLine(st, UnitText([u]) + rest) == ScanLine(st, rest)
  {
    assert [u][1..] == [];
    ScanAfter(st, UnitText([u]), rest);
  }

  /** The inside of a string changes nothing. */
  lemma {:induction false} ScanUnits(st: Scan, q: char, us: seq<Unit>, rest: string)
    requires AreUnits(q, us) && st.quote == Some(q)
    ensures ScanLine(st, UnitText(us) + rest) == ScanLine(st, rest)
    decreases |us|
  {
    if us == [] {
      assert UnitText(us) + rest == rest;
    } else {
      assert UnitText([us[0]]) + UnitText([]) == UnitText([us[0]]) && [us[0]][1..] == [];
      assert UnitText(us) + rest == UnitText([us[0]]) + (UnitText(us[1..]) + rest);
      ScanUnit(st, q, us[0], UnitText(us[1..]) + rest);
      ScanUnits(st, q, us[1..], rest);
    }
  }

  lemma {:induction false} FirstOfUnits(q: char, us: seq<Unit>)
    requires AreUnits(q, us) && us != []
    ensures UnitText(us) != "" && UnitText(us)[0] != q
  {
    assert IsUnit(q, us[0]);
  }

  lemma {:induction false} ScanQuoted(depth: int, q: char, us: seq<Unit>, rest: string)
    requires IsPiece(Quoted(q, us), rest)
    ensures ScanLine(Scan(None, false, depth), PieceText(Quoted(q, us)) + rest)
         == ScanLine(Scan(None, false, depth), rest)
  {
    var inside := UnitText(us) + ([q] + rest);
    var text := [q] + inside;
    assert PieceText(Quoted(q, us)) + rest == text;
    if us != [] { FirstOfUnits(q, us); } else { assert inside == [q] + rest; }
    assert !Tripled(text, 0);
    ScanAfter(Scan(Some(q), false, depth), [q], inside);
    ScanUnits(Scan(Some(q), false, depth), q, us, [q] + rest);
    ScanAfter(Scan(None, false, depth), [q], rest);
  }

  /** Three quotes end a multi-line string. */
  lemma {:induction false} ScanClose(depth: int, q: char, rest: string)
    requires IsQuote(q) && !StartsWith(rest, q)
    ensures ScanLine(Scan(Some(q), true, depth), [q, q, q] + rest) == ScanLine(Scan(None, false, depth), rest)
  {
    var text := [q, q, q] + rest;
    assert text[0] == q && text[1] == q && text[2] == q && (|text| > 3 ==> text[3] != q);
    assert LastOfRun(text, 2) == 2 && LastOfRun(text, 1) == 2 && LastOfRun(text, 0) == 2;
    ScanAfter(Scan(None, false, depth), [q, q, q], rest);
  }

  lemma {:induction false} ScanOpen(depth: int, q: char, rest: string)
    requires IsQuote(q)
    ensures ScanLine(Scan(None, false, depth), [q, q, q] + rest) == ScanLine(Scan(Some(q), true, depth), rest)
  {
    var text := [q, q, q] + rest;
    assert Tripled(text, 0);
    ScanAfter(Scan(Some(q), true, depth), [q, q, q], rest);
  }

  lemma {:induction false} ScanMulti(depth: int, q: char, us: seq<Unit>, rest: string)
    requires IsPiece(Multi(q, us), rest)
    ensures ScanLine(Scan(None, false, depth), PieceText(Multi(q, us)) + rest)
         == ScanLine(Scan(None, false, depth), rest)
  {
    assert PieceText(Multi(q, us)) + rest == [q, q, q] + (UnitText(us) + ([q, q, q] + rest));
    ScanOpen(depth, q, UnitText(us) + ([q, q, q] + rest));
    ScanUnits(Scan(Some(q), true, depth), q, us, [q, q, q] + rest);
    ScanClose(depth, q, rest);
  }

  lemma {:induction false} ScanPiece(depth: int, p: Piece, rest: string)
    requires IsPiece(p, rest)
    ensures ScanLine(Scan(None, false, depth), PieceText(p) + rest)
         == ScanLine(Scan(None, false, depth + Net([p])), rest)
  {
    assert [p][1..] == [];
    match p
    case Quoted(q, us) => ScanQuoted(depth, q, us, rest);
    case Multi(q, us) => ScanMulti(depth, q, us, rest);
    case _ => ScanAfter(Scan(None, false, depth + Net([p])), PieceText(p), rest);
  }

  lemma {:induction false} ScanEnd(depth: int, e: End)
    requires IsLineOf([], e)
    ensures ScanLine(Scan(None, false, depth), EndText(e)) == StateAt(e, depth)
  {
    if e.Unclosed? {
      ScanOpen(depth, e.q, UnitText(e.units));
      assert UnitText(e.units) + "" == UnitText(e.units);
      ScanUnits(Scan(Some(e.q), true, depth), e.q, e.units, "");
    }
  }

  /** A line that begins outside strings: quotes, escapes, comments and brackets count as in TOML,
      and the next line begins inside a string exactly if this one leaves a multi-line string open. */
  lemma {:induction false} LineIsRead(depth: int, ps: seq<Piece>, e: End)
    requires IsLineOf(ps, e)
    ensures ScanLine(Scan(None, false, depth), LineText(ps, e)) == StateAt(e, depth + Net(ps))
    decreases |ps|
  {
    if ps == [] {
      ScanEnd(depth, e);
    } else {
      assert [ps[0]][1..] == [];
      ScanPiece(depth, ps[0], LineText(ps[1..], e));
      LineIsRead(depth + Net([ps[0]]), ps[1..], e);
    }
  }

  /** A line that begins inside a multi-line string stays inside it, or goes on after its end like
      any other. */
  lemma {:induction false} LineInStringIsRead(depth: int, q: char, us: seq<Unit>, ps: seq<Piece>, e: End)
    requires AreUnits(q, us) && IsLineOf(ps, e) && !StartsWith(LineText(ps, e), q)
    ensures ScanLine(Scan(Some(q), true, depth), UnitText(us)) == Scan(Some(q), true, depth)
    ensures ScanLine(Scan(Some(q), true, depth), UnitText(us) + ([q, q, q] + LineText(ps, e)))
         == StateAt(e, depth + Net(ps))
  {
    assert UnitText(us) + "" == UnitText(us);
    ScanUnits(Scan(Some(q), true, depth), q, us, "");
    ScanUnits(Scan(Some(q), true, depth), q, us, [q, q, q] + LineText(ps, e));
    ScanClose(depth, q, LineText(ps, e));
    LineIsRead(depth, ps, e);
  }
}
