/** Stripping comments from JSONC text: one pass with a string flag and an escape flag, against a
    tokenizer that cuts the same text into strings, comments and single characters. */
module Jsonc {
  import opened Lines
  import opened Seqs

  // ---------------------------------------------------------------- the tokenizer

  datatype Kind = Text | Quoted | LineComment | BlockComment

  /** The length of the token's rest from `i`, where the text is inside a string. */
  function StringEnd(t: string, i: nat, escape: bool): (n: nat)
    requires i <= |t|
    ensures i <= n <= |t|
    decreases |t| - i
  {
    if i == |t| then i
    else if escape then StringEnd(t, i + 1, false)
    else if t[i] == '\\' then StringEnd(t, i + 1, true)
    else if t[i] == '"' then i + 1
    else StringEnd(t, i + 1, false)
  }

  /** One past the closing mark, or the end: an unclosed comment takes the rest of the text. */
  function BlockEnd(t: string, i: nat): (n: nat)
    requires i <= |t|
    ensures i <= n <= |t|
    decreases |t| - i
  {
    if i + 1 >= |t| then |t| else if t[i] == '*' && t[i + 1] == '/' then i + 2 else BlockEnd(t, i + 1)
  }

  function KindOf(t: string): Kind
    requires t != ""
  {
    if t[0] == '"' then Quoted
    else if t[0] == '/' && |t| > 1 && t[1] == '/' then LineComment
    else if t[0] == '/' && |t| > 1 && t[1] == '*' then BlockComment
    else Text
  }

  predicate IsComment(t: string)
    requires t != ""
  {
    KindOf(t).LineComment? || KindOf(t).BlockComment?
  }

  /** The length of the first token. */
  function Length(t: string): (n: nat)
    requires t != ""
    ensures 1 <= n <= |t|
  {
    match KindOf(t)
    case Text => 1
    case Quoted => StringEnd(t, 1, false)
    case LineComment => LineEnd(t, 2)
    case BlockComment => BlockEnd(t, 2)
  }

  datatype Token = Token(kind: Kind, text: string)

  function Tokens(t: string): seq<Token>
    decreases |t|
  {
    if t == "" then [] else [Token(KindOf(t), t[..Length(t)])] + Tokens(t[Length(t)..])
  }

  /** The text of all tokens, or of those that are no comments. */
  function Concat(ts: seq<Token>, comments: bool): string {
    if ts == [] then ""
    else (if comments || ts[0].kind.Text? || ts[0].kind.Quoted? then ts[0].text else "") + Concat(ts[1..], comments)
  }

  /** What is left when the comment tokens go. */
  function Stripped(t: string): string
    decreases |t|
  {
    if t == "" then "" else (if IsComment(t) then "" else t[..Length(t)]) + Stripped(t[Length(t)..])
  }

  /** The tokenizer loses nothing, and stripping drops exactly the comment tokens. */
  lemma {:induction false} StrippedIsTheOtherTokens(t: string)
    ensures Concat(Tokens(t), true) == t
    ensures Concat(Tokens(t), false) == Stripped(t)
    decreases |t|
  {
    if t != "" {
      var n := Length(t);
      StrippedIsTheOtherTokens(t[n..]);
      assert Tokens(t)[1..] == Tokens(t[n..]);
      assert t[..n] + t[n..] == t;
    }
  }

  // ---------------------------------------------------------------- the pass

  /** What is left of `t` from `i`, given the flags. */
  function Rest(t: string, i: nat, inString: bool, escape: bool): string
    requires i <= |t|
  {
    if inString then t[i..StringEnd(t, i, escape)] + Stripped(t[StringEnd(t, i, escape)..]) else Stripped(t[i..])
  }

  method StripJsoncComments(text: string) returns (result: string)
    ensures result == Stripped(text)
  {
    result := "";
    var i := 0;
    var inString, escape := false, false;
    assert text[0..] == text;
    while i < |text|
      invariant 0 <= i <= |text|
      invariant escape ==> inString
      invariant result + Rest(text, i, inString, escape) == Stripped(text)
      decreases |text| - i
    {
      var out, next;
      if inString {
        out, next, inString, escape := StepInString(text, i, escape);
      } else {
        out, next, inString := StepOutside(text, i);
      }
      AppendAssociates(result, out, Rest(text, next, inString, escape));
      result, i := result + out, next;
    }
    assert text[i..] == "";
  }

  /** One turn of the loop inside a string: the character is kept. */
  method StepInString(text: string, i: nat, escape: bool)
    returns (out: string, next: nat, inString': bool, escape': bool)
    requires i < |text|
    ensures i < next <= |text| && (escape' ==> inString')
    ensures Rest(text, i, true, escape) == out + Rest(text, next, inString', escape')
  {
    RestInString(text, i, escape);
    var ch := text[i];
    out, next, inString', escape' := [ch], i + 1, true, false;
    if escape { return; }
    if ch == '\\' { escape' := true; } else if ch == '"' { inString' := false; }
  }

  /** One turn outside strings: a whole comment is passed over, any other character kept. */
  method StepOutside(text: string, i: nat) returns (out: string, next: nat, inString': bool)
    requires i < |text|
    ensures i < next <= |text|
    ensures Rest(text, i, false, false) == out + Rest(text, next, inString', false)
  {
    var ch := text[i];
    if ch == '"' {
      RestQuote(text, i);
      return [ch], i + 1, true;
    }
    if ch == '/' && i + 1 < |text| {
      if text[i + 1] == '/' {
        next := SkipLine(text, i + 2);
        RestLine(text, i);
        return "", next, false;
      }
      if text[i + 1] == '*' {
        next := SkipBlock(text, i + 2);
        RestBlock(text, i);
        return "", next, false;
      }
    }
    RestText(text, i);
    return [ch], i + 1, false;
  }

  method SkipLine(text: string, start: nat) returns (i: nat)
    requires start <= |text|
    ensures i == LineEnd(text, start)
  {
    i := start;
    while i < |text| && text[i] != '\n'
      invariant i <= |text| && LineEnd(text, i) == LineEnd(text, start)
    {
      i := i + 1;
    }
  }

  /** May step past the end; there the outer loop ends, as it does at the end. */
  method SkipBlock(text: string, start: nat) returns (i: nat)
    requires start <= |text|
    ensures i == BlockEnd(text, start)
  {
    i := start;
    while i + 1 < |text| && !(text[i] == '*' && text[i + 1] == '/')
      invariant i <= |text| && BlockEnd(text, i) == BlockEnd(text, start)
      decreases |text| - i
    {
      i := i + 1;
    }
    i := if i + 2 <= |text| then i + 2 else |text|;
  }

  lemma {:induction false} RestInString(t: string, i: nat, escape: bool)
    requires i < |t|
    ensures Rest(t, i, true, escape) == [t[i]] + Rest(t, i + 1, escape || t[i] != '"', !escape && t[i] == '\\')
  {
    var n := StringEnd(t, i, escape);
    assert t[i..n] == [t[i]] + t[i + 1..n];
    if !escape && t[i] == '"' { assert t[i + 1..n] == ""; }
  }

  lemma {:induction false} RestQuote(t: string, i: nat)
    requires i < |t| && t[i] == '"'
    ensures Rest(t, i, false, false) == [t[i]] + Rest(t, i + 1, true, false)
  {
    var u := t[i..];
    StringEndShift(t, i, 1, false);
    var n := StringEnd(u, 1, false);
    assert u[n..] == t[i + n..];
    assert u[..n] == [t[i]] + t[i + 1..i + n];
  }

  lemma {:induction false} RestLine(t: string, i: nat)
    requires i + 1 < |t| && t[i] == '/' && t[i + 1] == '/'
    ensures Rest(t, i, false, false) == "" + Rest(t, LineEnd(t, i + 2), false, false)
  {
    var u := t[i..];
    LineEndShift(t, i, 2);
    assert u[LineEnd(u, 2)..] == t[i + LineEnd(u, 2)..];
  }

  lemma {:induction false} RestBlock(t: string, i: nat)
    requires i + 1 < |t| && t[i] == '/' && t[i + 1] == '*'
    ensures Rest(t, i, false, false) == "" + Rest(t, BlockEnd(t, i + 2), false, false)
  {
    var u := t[i..];
    BlockEndShift(t, i, 2);
    assert u[BlockEnd(u, 2)..] == t[i + BlockEnd(u, 2)..];
  }

  lemma {:induction false} RestText(t: string, i: nat)
    requires i < |t| && t[i] != '"' && (t[i] != '/' || i + 1 == |t| || (t[i + 1] != '/' && t[i + 1] != '*'))
    ensures Rest(t, i, false, false) == [t[i]] + Rest(t, i + 1, false, false)
  {
    var u := t[i..];
    assert u[..1] == [t[i]] && u[1..] == t[i + 1..];
  }

  lemma {:induction false} StringEndShift(t: string, at: nat, i: nat, escape: bool)
    requires at + i <= |t|
    ensures StringEnd(t[at..], i, escape) + at == StringEnd(t, at + i, escape)
    decreases |t| - i
  {
    if at + i < |t| {
      StringEndShift(t, at, i + 1, true);
      StringEndShift(t, at, i + 1, false);
    }
  }

  lemma {:induction false} LineEndShift(t: string, at: nat, i: nat)
    requires at + i <= |t|
    ensures LineEnd(t[at..], i) + at == LineEnd(t, at + i)
    decreases |t| - i
  {
    if at + i < |t| { LineEndShift(t, at, i + 1); }
  }

  lemma {:induction false} BlockEndShift(t: string, at: nat, i: nat)
    requires at + i <= |t|
    ensures BlockEnd(t[at..], i) + at == BlockEnd(t, at + i)
    decreases |t| - i
  {
    if at + i < |t| { BlockEndShift(t, at, i + 1); }
  }

  // ---------------------------------------------------------------- deleting comments makes none

  /** A kept token of `t`, followed by what is kept of the rest, is again the first token. */
  lemma {:induction false} TokenStays(t: string, rest: string)
    requires t != "" && !IsComment(t) && rest == Stripped(t[Length(t)..])
    ensures var kept := t[..Length(t)] + rest; !IsComment(kept) && Length(kept) == Length(t)
  {
    var n := Length(t);
    var kept := t[..n] + rest;
    if t[0] == '"' {
      SameString(t, kept, 1, false);
    } else if t[0] == '/' {
      SlashStays(t[1..], rest);
      assert |kept| > 1 ==> kept[1] == rest[0];
    }
  }

  /** After a slash that starts no comment, no slash and no star comes next. */
  lemma {:induction false} SlashStays(t: string, rest: string)
    requires rest == Stripped(t) && (t != "" ==> t[0] != '/' && t[0] != '*')
    ensures rest != "" ==> rest[0] != '/' && rest[0] != '*'
  {
    if t != "" { assert rest[0] == t[..Length(t)][0] == t[0]; }
  }

  /** A string token ends where it did, whatever follows, unless it never ended. */
  lemma {:induction false} SameString(t: string, kept: string, i: nat, escape: bool)
    requires i <= |t| && i <= |kept| && StringEnd(t, i, escape) <= |kept|
    requires t[..StringEnd(t, i, escape)] == kept[..StringEnd(t, i, escape)]
    requires StringEnd(t, i, escape) == |t| ==> |kept| == |t|
    ensures StringEnd(kept, i, escape) == StringEnd(t, i, escape)
    decreases |t| - i
  {
    if i < StringEnd(t, i, escape) {
      assert t[..StringEnd(t, i, escape)][i] == kept[..StringEnd(t, i, escape)][i];
      if escape {
        SameString(t, kept, i + 1, false);
      } else if t[i] == '\\' {
        SameString(t, kept, i + 1, true);
      } else if t[i] != '"' {
        SameString(t, kept, i + 1, false);
      }
    }
  }

  /** Stripping is idempotent: deleting a comment never makes a new one. */
  lemma {:induction false} StrippingTwice(t: string)
    ensures Stripped(Stripped(t)) == Stripped(t)
    decreases |t|
  {
    if t != "" {
      var n := Length(t);
      var rest := Stripped(t[n..]);
      StrippingTwice(t[n..]);
      assert "" + rest == rest;
      if !IsComment(t) {
        TokenStays(t, rest);
        var kept := t[..n] + rest;
        assert kept[..n] == t[..n] && kept[n..] == rest;
      }
    }
  }

  predicate HasComment(t: string)
    decreases |t|
  {
    t != "" && (IsComment(t) || HasComment(t[Length(t)..]))
  }

  /** Stripping changes a text if and only if it has a comment. */
  lemma {:induction false} StrippingIsIdentityIff(t: string)
    ensures Stripped(t) == t <==> !HasComment(t)
    ensures |Stripped(t)| <= |t|
    decreases |t|
  {
    if t != "" {
      var n := Length(t);
      StrippingIsIdentityIff(t[n..]);
      assert t == t[..n] + t[n..];
      if !IsComment(t) && Stripped(t) == t { assert Stripped(t)[n..] == Stripped(t[n..]); }
    }
  }

  /** No comment is left. */
  lemma {:induction false} NoCommentIsLeft(t: string)
    ensures !HasComment(Stripped(t))
  {
    StrippingTwice(t);
    StrippingIsIdentityIff(Stripped(t));
  }

  /** No slash outside strings. */
  predicate NoSlash(t: string)
    decreases |t|
  {
    t == "" || (t[0] != '/' && NoSlash(t[Length(t)..]))
  }

  lemma {:induction false} NoSlashNoChange(t: string)
    requires NoSlash(t)
    ensures Stripped(t) == t
    decreases |t|
  {
    if t != "" {
      NoSlashNoChange(t[Length(t)..]);
      assert t == t[..Length(t)] + t[Length(t)..];
    }
  }

  // ---------------------------------------------------------------- where the first token ends

  /** How many backslashes stand right before `j`, after the opening quote. */
  function Backslashes(t: string, j: nat): nat
    requires j <= |t|
  {
    if j <= 1 || t[j - 1] != '\\' then 0 else 1 + Backslashes(t, j - 1)
  }

  /** A quote after an even number of backslashes. */
  predicate Ends(t: string, j: nat)
    requires j < |t|
  {
    t[j] == '"' && Backslashes(t, j) % 2 == 0
  }

  predicate Closes(t: string, j: nat) { j + 1 < |t| && t[j] == '*' && t[j + 1] == '/' }

  lemma {:induction false} StringEndIs(t: string, i: nat, escape: bool)
    requires 1 <= i <= |t| && escape == (Backslashes(t, i) % 2 == 1)
    ensures var n := StringEnd(t, i, escape);
            && (forall j :: i <= j < |t| && j + 1 < n ==> !Ends(t, j))
            && ((i < n && Ends(t, n - 1)) || (n == |t| && forall j :: i <= j < |t| ==> !Ends(t, j)))
    decreases |t| - i
  {
    if i < |t| && !Ends(t, i) {
      assert Backslashes(t, i + 1) == if t[i] == '\\' then 1 + Backslashes(t, i) else 0;
      StringEndIs(t, i + 1, !escape && t[i] == '\\');
    }
  }

  lemma {:induction false} BlockEndIs(t: string, i: nat)
    requires i <= |t|
    ensures var n := BlockEnd(t, i);
            && (forall j :: i <= j && j + 2 < n ==> !Closes(t, j))
            && ((i + 2 <= n && Closes(t, n - 2)) || (n == |t| && forall j :: i <= j ==> !Closes(t, j)))
    decreases |t| - i
  {
    if i + 1 < |t| && !Closes(t, i) { BlockEndIs(t, i + 1); }
  }

  /** The first token: a string up to the next quote that is not escaped, a line comment up to the
      line break, a block comment up to the next closing mark, each to the end of the text if
      there is none; anything else is one character. */
  lemma {:induction false} FirstToken(t: string)
    requires t != ""
    ensures var n := Length(t);
            && (t[0] == '"' ==>
                  && (forall j :: 1 <= j < |t| && j + 1 < n ==> !Ends(t, j))
                  && ((1 < n && Ends(t, n - 1)) || (n == |t| && forall j :: 1 <= j < |t| ==> !Ends(t, j))))
            && ("//" <= t ==> IsLine(t[2..n]) && (n < |t| ==> t[n] == '\n'))
            && ("/*" <= t ==>
                  && (forall j :: 2 <= j && j + 2 < n ==> !Closes(t, j))
                  && ((4 <= n && Closes(t, n - 2)) || (n == |t| && forall j :: 2 <= j ==> !Closes(t, j))))
            && (t[0] != '"' && !("//" <= t) && !("/*" <= t) ==> n == 1)
            && (IsComment(t) <==> "//" <= t || "/*" <= t)
  {
    if t[0] == '"' { StringEndIs(t, 1, false); }
    if |t| >= 2 { BlockEndIs(t, 2); }
    assert "//" <= t <==> |t| > 1 && t[0] == '/' && t[1] == '/';
    assert "/*" <= t <==> |t| > 1 && t[0] == '/' && t[1] == '*';
  }
}
