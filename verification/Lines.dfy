/** Text as lines: `split('\n')` and `join('\n')`, and how they undo each other. */
module Lines {
  predicate OccursAt(s: string, pat: string, i: nat) {
    i + |pat| <= |s| && s[i..i + |pat|] == pat
  }

  predicate IsLine(s: string) { '\n' !in s }

  predicate AreLines(ls: seq<string>) { forall i :: 0 <= i < |ls| ==> IsLine(ls[i]) }

  /** `c` in front of the first line. */
  function Push(c: char, ls: seq<string>): (r: seq<string>)
    requires ls != []
    ensures |r| == |ls|
  {
    [[c] + ls[0]] + ls[1..]
  }

  function Split(s: string): (ls: seq<string>)
    ensures ls != [] && AreLines(ls)
  {
    if s == "" then [""]
    else
      var rest := Split(s[1..]);
      if s[0] == '\n' then [""] + rest else Push(s[0], rest)
  }

  function Join(ls: seq<string>): string {
    if ls == [] then "" else if |ls| == 1 then ls[0] else ls[0] + "\n" + Join(ls[1..])
  }

  lemma {:induction false} JoinSplit(s: string)
    ensures Join(Split(s)) == s
  {
    if s != "" {
      JoinSplit(s[1..]);
      var rest := Split(s[1..]);
      if s[0] == '\n' {
        assert ([""] + rest)[1..] == rest;
      } else {
        var ls := Push(s[0], rest);
        assert ls[1..] == rest[1..];
        assert Join(ls) == [s[0]] + Join(rest);
      }
      assert s == [s[0]] + s[1..];
    }
  }

  /** Splitting at a line break that is written out. */
  lemma {:induction false} SplitAppend(a: string, b: string)
    ensures Split(a + "\n" + b) == Split(a) + Split(b)
  {
    var text := a + "\n" + b;
    if a == "" {
      assert text[1..] == b;
    } else {
      assert text[0] == a[0] && text[1..] == a[1..] + "\n" + b;
      SplitAppend(a[1..], b);
      var rest := Split(a[1..]);
      if a[0] == '\n' {
        assert [""] + (rest + Split(b)) == ([""] + rest) + Split(b);
      } else {
        PushAppend(a[0], rest, Split(b));
      }
    }
  }

  lemma {:induction false} PushAppend(c: char, xs: seq<string>, ys: seq<string>)
    requires xs != []
    ensures Push(c, xs + ys) == Push(c, xs) + ys
  {
    assert (xs + ys)[1..] == xs[1..] + ys;
  }

  lemma {:induction false} SplitLine(l: string)
    requires IsLine(l)
    ensures Split(l) == [l]
  {
    if l != "" {
      SplitLine(l[1..]);
      assert l == [l[0]] + l[1..];
    }
  }

  lemma {:induction false} SplitJoin(ls: seq<string>)
    requires ls != [] && AreLines(ls)
    ensures Split(Join(ls)) == ls
  {
    SplitLine(ls[0]);
    if |ls| > 1 {
      SplitJoin(ls[1..]);
      SplitAppend(ls[0], Join(ls[1..]));
      assert [ls[0]] + ls[1..] == ls;
    } else {
      assert ls == [ls[0]];
    }
  }

  lemma {:induction false} JoinAppend(a: seq<string>, b: seq<string>)
    requires a != [] && b != []
    ensures Join(a + b) == Join(a) + "\n" + Join(b)
  {
    assert (a + b)[1..] == a[1..] + b;
    if |a| > 1 {
      JoinAppend(a[1..], b);
    } else {
      assert a[1..] + b == b;
    }
  }

  // ---------------------------------------------------------------- whole lines and the last one

  /** The lines that end in a line break. */
  function WholeLines(text: string): seq<string> { Split(text)[..|Split(text)| - 1] }

  /** What follows the last line break. */
  function Tail(text: string): string { Split(text)[|Split(text)| - 1] }

  /** `more` written after `ls`: its first line continues the last of `ls`. */
  function Glue(ls: seq<string>, more: seq<string>): seq<string>
    requires ls != [] && more != []
  {
    ls[..|ls| - 1] + [ls[|ls| - 1] + more[0]] + more[1..]
  }

  lemma {:induction false} GlueCons(ls: seq<string>, more: seq<string>)
    requires ls != [] && more != []
    ensures [""] + Glue(ls, more) == Glue([""] + ls, more)
  {
    assert ([""] + ls)[..|ls|] == [""] + ls[..|ls| - 1];
  }

  lemma {:induction false} GluePush(c: char, ls: seq<string>, more: seq<string>)
    requires ls != [] && more != []
    ensures Push(c, Glue(ls, more)) == Glue(Push(c, ls), more)
  {
    var l, r := Push(c, Glue(ls, more)), Glue(Push(c, ls), more);
    if |ls| == 1 { assert [c] + (ls[0] + more[0]) == ([c] + ls[0]) + more[0]; }
    forall i | 0 <= i < |l| ensures l[i] == r[i] {}
  }

  /** Appending continues the last line. */
  lemma {:induction false} SplitConcat(a: string, b: string)
    ensures Split(a + b) == Glue(Split(a), Split(b))
  {
    if a == "" {
      assert a + b == b;
      GlueWhole([""], Split(b));
      assert [""][..0] + Split(b) == Split(b);
    } else {
      assert (a + b)[1..] == a[1..] + b;
      SplitConcat(a[1..], b);
      if a[0] == '\n' { GlueCons(Split(a[1..]), Split(b)); } else { GluePush(a[0], Split(a[1..]), Split(b)); }
    }
  }

  lemma {:induction false} AppendToWhole(a: string, b: string)
    requires Tail(a) == ""
    ensures WholeLines(a + b) == WholeLines(a) + WholeLines(b) && Tail(a + b) == Tail(b)
  {
    assert Split(a + b) == WholeLines(a) + Split(b) by {
      SplitConcat(a, b);
      GlueWhole(Split(a), Split(b));
    }
    ButLast(WholeLines(a), Split(b));
  }

  lemma {:induction false} ButLast(xs: seq<string>, ys: seq<string>)
    requires ys != []
    ensures var all := xs + ys;
            all[..|all| - 1] == xs + ys[..|ys| - 1] && all[|all| - 1] == ys[|ys| - 1]
  {
  }

  lemma {:induction false} GlueWhole(ls: seq<string>, more: seq<string>)
    requires ls != [] && more != [] && ls[|ls| - 1] == ""
    ensures Glue(ls, more) == ls[..|ls| - 1] + more
  {
    assert "" + more[0] == more[0];
  }

  /** A prefix of a text has a prefix of its whole lines. */
  lemma {:induction false} PrefixLines(text: string, n: nat)
    requires n <= |text|
    ensures WholeLines(text[..n]) <= WholeLines(text)
  {
    SplitConcat(text[..n], text[n..]);
    assert text[..n] + text[n..] == text;
  }

  /** The next line break at or after `i`, or the end. */
  function LineEnd(bytes: string, i: nat): (j: nat)
    requires i <= |bytes|
    ensures i <= j <= |bytes| && IsLine(bytes[i..j]) && (j < |bytes| ==> bytes[j] == '\n')
    decreases |bytes| - i
  {
    if i == |bytes| || bytes[i] == '\n' then i
    else
      var j := LineEnd(bytes, i + 1);
      assert bytes[i..j] == [bytes[i]] + bytes[i + 1..j];
      j
  }
}
