/**
 * The final pass of the formatter, `output.replace('.', r'\.').replace('-', r'\-')`:
 * every full stop and hyphen gets a backslash in front of it, inside code
 * blocks as well as outside them.
 */
module Escape {

  /** `s.replace(c, rep)` for a one-character pattern. */
  function ReplaceChar(s: string, c: char, rep: string): string
  {
    if s == [] then "" else (if s[0] == c then rep else [s[0]]) + ReplaceChar(s[1..], c, rep)
  }

  predicate Escaped(c: char) { c == '.' || c == '-' }

  function EscapeChar(c: char): string
  {
    if Escaped(c) then ['\\', c] else [c]
  }

  /** The two replacements as one left-to-right pass. */
  function EscapeDotDash(s: string): string
  {
    if s == [] then "" else EscapeChar(s[0]) + EscapeDotDash(s[1..])
  }

  function Count(s: string, c: char): nat
  {
    if s == [] then 0 else (if s[0] == c then 1 else 0) + Count(s[1..], c)
  }

  /** Drops the backslash in front of each escaped full stop or hyphen. */
  function Unescape(s: string): string
  {
    if |s| >= 2 && s[0] == '\\' && Escaped(s[1]) then [s[1]] + Unescape(s[2..])
    else if s == [] then ""
    else [s[0]] + Unescape(s[1..])
  }

  lemma {:induction false} ReplaceCharConcat(a: string, b: string, c: char, rep: string)
    ensures ReplaceChar(a + b, c, rep) == ReplaceChar(a, c, rep) + ReplaceChar(b, c, rep)
  {
    if a != [] {
      assert (a + b)[1..] == a[1..] + b;
      ReplaceCharConcat(a[1..], b, c, rep);
    } else {
      assert a + b == b;
    }
  }

  lemma ReplaceCharOne(d: char, c: char, rep: string)
    ensures ReplaceChar([d], c, rep) == if d == c then rep else [d]
  {
    assert [d][1..] == [];
  }

  /** The first pass on one character, followed by the second pass. */
  lemma ChainedReplaceOne(d: char)
    ensures ReplaceChar(ReplaceChar([d], '.', "\\."), '-', "\\-") == EscapeChar(d)
  {
    ReplaceCharOne(d, '.', "\\.");
    if d == '.' {
      ReplaceCharConcat("\\", ".", '-', "\\-");
      assert "\\." == "\\" + ".";
      ReplaceCharOne('\\', '-', "\\-");
      ReplaceCharOne('.', '-', "\\-");
    } else {
      ReplaceCharOne(d, '-', "\\-");
    }
  }

  /** The source's two chained `replace` calls compute `EscapeDotDash`. */
  lemma {:induction false} ChainedReplaceEscapes(s: string)
    ensures ReplaceChar(ReplaceChar(s, '.', "\\."), '-', "\\-") == EscapeDotDash(s)
  {
    if s != [] {
      assert s == [s[0]] + s[1..];
      ReplaceCharConcat([s[0]], s[1..], '.', "\\.");
      ReplaceCharConcat(ReplaceChar([s[0]], '.', "\\."), ReplaceChar(s[1..], '.', "\\."), '-', "\\-");
      ChainedReplaceOne(s[0]);
      ChainedReplaceEscapes(s[1..]);
    }
  }

  lemma {:induction false} EscapeConcat(a: string, b: string)
    ensures EscapeDotDash(a + b) == EscapeDotDash(a) + EscapeDotDash(b)
  {
    if a != [] {
      assert (a + b)[1..] == a[1..] + b;
      EscapeConcat(a[1..], b);
    } else {
      assert a + b == b;
    }
  }

  /** The output grows by exactly one backslash per full stop and hyphen. */
  lemma {:induction false} EscapeLength(s: string)
    ensures |EscapeDotDash(s)| == |s| + Count(s, '.') + Count(s, '-')
  {
    if s != [] {
      EscapeLength(s[1..]);
    }
  }

  /**
   * Apart from the added backslashes, no character is created or lost:
   * every other character occurs as often as before.
   */
  lemma {:induction false} EscapeCounts(s: string, c: char)
    ensures c != '\\' ==> Count(EscapeDotDash(s), c) == Count(s, c)
    ensures Count(EscapeDotDash(s), '\\') == Count(s, '\\') + Count(s, '.') + Count(s, '-')
  {
    if s != [] {
      EscapeCounts(s[1..], c);
      CountConcat(EscapeChar(s[0]), EscapeDotDash(s[1..]), c);
      CountConcat(EscapeChar(s[0]), EscapeDotDash(s[1..]), '\\');
      var e := EscapeChar(s[0]);
      if Escaped(s[0]) {
        assert e[1..][1..] == [];
      } else {
        assert e[1..] == [];
      }
    }
  }

  lemma {:induction false} CountConcat(a: string, b: string, c: char)
    ensures Count(a + b, c) == Count(a, c) + Count(b, c)
  {
    if a != [] {
      assert (a + b)[1..] == a[1..] + b;
      CountConcat(a[1..], b, c);
    } else {
      assert a + b == b;
    }
  }

  /** The escaped text never starts with a bare full stop or hyphen. */
  lemma EscapeStartsSafely(s: string)
    ensures EscapeDotDash(s) != [] ==> !Escaped(EscapeDotDash(s)[0])
  {
  }

  /** Removing the backslashes gives the original text back. */
  lemma {:induction false} UnescapeEscape(s: string)
    ensures Unescape(EscapeDotDash(s)) == s
  {
    if s != [] {
      var rest := EscapeDotDash(s[1..]);
      UnescapeEscape(s[1..]);
      EscapeStartsSafely(s[1..]);
      if Escaped(s[0]) {
        assert (['\\', s[0]] + rest)[2..] == rest;
      } else {
        assert ([s[0]] + rest)[1..] == rest;
      }
    }
  }

  /**
   * Every full stop and hyphen of the escaped text has a backslash right
   * before it, as MarkdownV2 requires of these two characters.
   */
  lemma {:induction false} EscapedAreProtected(s: string)
    ensures forall i :: 0 <= i < |EscapeDotDash(s)| && Escaped(EscapeDotDash(s)[i]) ==>
              i > 0 && EscapeDotDash(s)[i - 1] == '\\'
  {
    if s != [] {
      EscapedAreProtected(s[1..]);
      var e, rest := EscapeChar(s[0]), EscapeDotDash(s[1..]);
      assert EscapeDotDash(s) == e + rest;
      EscapeStartsSafely(s[1..]);
      forall i | 0 <= i < |e + rest| && Escaped((e + rest)[i])
        ensures i > 0 && (e + rest)[i - 1] == '\\'
      {
        if i >= |e| {
          assert (e + rest)[i] == rest[i - |e|];
          if i > |e| {
            assert (e + rest)[i - 1] == rest[i - 1 - |e|];
          }
        }
      }
    }
  }

  /** Text without full stops and hyphens is left as it is. */
  lemma {:induction false} EscapeLeavesPlainText(s: string)
    requires forall i :: 0 <= i < |s| ==> !Escaped(s[i])
    ensures EscapeDotDash(s) == s
  {
    if s != [] {
      EscapeLeavesPlainText(s[1..]);
      assert s == [s[0]] + s[1..];
    }
  }
}
