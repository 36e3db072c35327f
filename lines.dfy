/**
 * Text as a sequence of lines: joining lines with "\n" and splitting text
 * at each "\n", as `"\n".join` and `str.split("\n")` do.
 */
module Lines {
  import opened Escape

  /** Every line followed by a newline. */
  function Unlines(ls: seq<string>): string
  {
    if ls == [] then "" else Unlines(ls[..|ls| - 1]) + (ls[|ls| - 1] + "\n")
  }

  /** `"\n".join(ls)` for at least one line. */
  function JoinLines(ls: seq<string>): string
    requires ls != []
  {
    Unlines(ls[..|ls| - 1]) + ls[|ls| - 1]
  }

  /** `s.split("\n")`. */
  function SplitLines(s: string): (ls: seq<string>)
    ensures ls != []
    decreases |s|
  {
    if '\n' !in s then [s]
    else
      var i := FirstNewline(s);
      [s[..i]] + SplitLines(s[i + 1..])
  }

  function FirstNewline(s: string): (i: nat)
    requires '\n' in s
    ensures i < |s| && s[i] == '\n' && '\n' !in s[..i]
  {
    if s[0] == '\n' then 0
    else
      var i := FirstNewline(s[1..]) + 1;
      assert s[..i] == [s[0]] + s[1..][..i - 1];
      i
  }

  predicate NoNewlines(ls: seq<string>)
  {
    forall k :: 0 <= k < |ls| ==> '\n' !in ls[k]
  }

  lemma UnlinesSnoc(ls: seq<string>, l: string)
    ensures Unlines(ls + [l]) == Unlines(ls) + (l + "\n")
  {
    assert (ls + [l])[..|ls|] == ls;
  }

  lemma {:induction false} UnlinesConcat(a: seq<string>, b: seq<string>)
    ensures Unlines(a + b) == Unlines(a) + Unlines(b)
    decreases |b|
  {
    if b == [] {
      assert a + b == a;
    } else {
      var init := b[..|b| - 1];
      assert (a + b)[..|a + b| - 1] == a + init;
      UnlinesConcat(a, init);
    }
  }

  lemma {:induction false} UnlinesCons(l: string, ls: seq<string>)
    ensures Unlines([l] + ls) == l + "\n" + Unlines(ls)
    decreases |ls|
  {
    if ls != [] {
      var init := ls[..|ls| - 1];
      assert ([l] + ls)[..|ls|] == [l] + init;
      UnlinesCons(l, init);
    }
  }

  lemma SplitAfterLine(a: string, b: string)
    requires '\n' !in a
    ensures SplitLines(a + "\n" + b) == [a] + SplitLines(b)
  {
    var s := a + "\n" + b;
    assert s[|a|] == '\n';
    var i := FirstNewline(s);
    assert forall k :: 0 <= k < |a| ==> s[k] == a[k];
    assert s[..i] == a && s[i + 1..] == b;
  }

  /** Splitting joined lines that hold no newline gives the lines back. */
  lemma {:induction false} SplitJoin(ls: seq<string>)
    requires ls != [] && NoNewlines(ls)
    ensures SplitLines(JoinLines(ls)) == ls
    decreases |ls|
  {
    if |ls| == 1 {
      assert ls[..0] == [];
      assert JoinLines(ls) == ls[0];
    } else {
      var rest := ls[1..];
      assert ls == [ls[0]] + rest;
      JoinLinesCons(ls[0], rest);
      SplitAfterLine(ls[0], JoinLines(rest));
      SplitJoin(rest);
    }
  }

  /** The first line of joined lines, then the rest. */
  lemma JoinLinesCons(l: string, ls: seq<string>)
    requires ls != []
    ensures JoinLines([l] + ls) == l + "\n" + JoinLines(ls)
  {
    var all := [l] + ls;
    assert all[..|all| - 1] == [l] + ls[..|ls| - 1];
    UnlinesCons(l, ls[..|ls| - 1]);
  }

  function EscapeEach(ls: seq<string>): (r: seq<string>)
    ensures |r| == |ls| && forall k :: 0 <= k < |ls| ==> r[k] == EscapeDotDash(ls[k])
  {
    seq(|ls|, k requires 0 <= k < |ls| => EscapeDotDash(ls[k]))
  }

  lemma {:induction false} EscapeUnlines(ls: seq<string>)
    ensures EscapeDotDash(Unlines(ls)) == Unlines(EscapeEach(ls))
    decreases |ls|
  {
    if ls != [] {
      var init := ls[..|ls| - 1];
      EscapeUnlines(init);
      EscapeConcat(Unlines(init), ls[|ls| - 1] + "\n");
      EscapeConcat(ls[|ls| - 1], "\n");
      assert EscapeDotDash("\n") == "\n";
      assert EscapeEach(ls)[..|ls| - 1] == EscapeEach(init);
    }
  }

  /** The final escape works line by line: it never adds or removes a line break. */
  lemma EscapeJoinLines(ls: seq<string>)
    requires ls != []
    ensures EscapeDotDash(JoinLines(ls)) == JoinLines(EscapeEach(ls))
  {
    EscapeUnlines(ls[..|ls| - 1]);
    EscapeConcat(Unlines(ls[..|ls| - 1]), ls[|ls| - 1]);
    assert EscapeEach(ls)[..|ls| - 1] == EscapeEach(ls[..|ls| - 1]);
  }

  lemma {:induction false} EscapeNoNewline(s: string)
    requires '\n' !in s
    ensures '\n' !in EscapeDotDash(s)
  {
    if s != [] {
      EscapeNoNewline(s[1..]);
    }
  }
}
