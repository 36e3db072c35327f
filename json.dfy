/**
 * The decoded API response as the formatter sees it: Python values built by
 * `response.json()`, with the dictionary lookups, truth tests and `str()`
 * conversions the formatter applies to them.
 */
module Json {
  import opened Wrappers
  import opened PyText

  /**
   * A decoded JSON value. A float is kept as the text Python's `repr` gives
   * it; a dictionary keeps its entries in insertion order.
   */
  datatype Json =
    | Null
    | Bool(b: bool)
    | Int(i: int)
    | Float(repr: string)
    | Str(s: string)
    | Arr(items: seq<Json>)
    | Obj(entries: seq<(string, Json)>)

  /** The exceptions the formatter can raise on values of an unexpected type. */
  datatype PyError = AttributeError | TypeError

  const EmptyObj: Json := Obj([])

  predicate HasKey(entries: seq<(string, Json)>, key: string)
  {
    exists i :: 0 <= i < |entries| && entries[i].0 == key
  }

  /** `d.get(key, default)` on a dictionary with the given entries. */
  function Get(entries: seq<(string, Json)>, key: string, default: Json): (v: Json)
    ensures !HasKey(entries, key) ==> v == default
    ensures HasKey(entries, key) ==> exists i :: 0 <= i < |entries| && entries[i] == (key, v)
  {
    if entries == [] then default
    else if entries[0].0 == key then entries[0].1
    else
      GetTail(entries, key);
      var v := Get(entries[1..], key, default);
      assert HasKey(entries[1..], key) ==> forall i :: 0 <= i < |entries[1..]| ==> entries[1..][i] == entries[i + 1];
      v
  }

  lemma GetTail(entries: seq<(string, Json)>, key: string)
    requires entries != [] && entries[0].0 != key
    ensures HasKey(entries, key) <==> HasKey(entries[1..], key)
  {
    if HasKey(entries, key) {
      var i :| 0 <= i < |entries| && entries[i].0 == key;
      assert entries[1..][i - 1].0 == key;
    }
    if HasKey(entries[1..], key) {
      var i :| 0 <= i < |entries[1..]| && entries[1..][i].0 == key;
      assert entries[i + 1].0 == key;
    }
  }

  /** The lookup finds the first entry with the key, as a decoded dictionary has at most one. */
  lemma {:induction false} GetFindsFirst(entries: seq<(string, Json)>, key: string, default: Json, i: nat)
    requires i < |entries| && entries[i].0 == key
    requires forall j :: 0 <= j < i ==> entries[j].0 != key
    ensures Get(entries, key, default) == entries[i].1
  {
    if i > 0 {
      GetFindsFirst(entries[1..], key, default, i - 1);
    }
  }

  /** Python's truth test. The float zero's `repr` is "0.0" or "-0.0". */
  predicate Truthy(v: Json)
  {
    match v
    case Null => false
    case Bool(b) => b
    case Int(i) => i != 0
    case Float(r) => r != "0.0" && r != "-0.0"
    case Str(s) => s != ""
    case Arr(items) => items != []
    case Obj(entries) => entries != []
  }

  /** The values Python takes as false: `None`, `False`, the zeros and the empty string, list and dictionary. */
  lemma FalsyValues(v: Json)
    ensures !Truthy(v) <==> v in {Null, Bool(false), Int(0), Float("0.0"), Float("-0.0"), Str(""), Arr([]), Obj([])}
  {
  }

  /** `str(v)`, as an f-string replacement field renders `v`. */
  function Show(v: Json): string
  {
    if v.Str? then v.s else Repr(v)
  }

  /** `repr(v)`. */
  function Repr(v: Json): string
    decreases v
  {
    match v
    case Null => "None"
    case Bool(b) => if b then "True" else "False"
    case Int(i) => IntToString(i)
    case Float(r) => r
    case Str(s) => ReprString(s)
    case Arr(items) =>
      "[" + Join(seq(|items|, k requires 0 <= k < |items| => Repr(items[k]))) + "]"
    case Obj(entries) =>
      "{" + Join(seq(|entries|, k requires 0 <= k < |entries| =>
                   ReprString(entries[k].0) + ": " + Repr(entries[k].1))) + "}"
  }

  /** `", ".join(parts)`. */
  function Join(parts: seq<string>): string
  {
    if parts == [] then ""
    else if |parts| == 1 then parts[0]
    else parts[0] + ", " + Join(parts[1..])
  }

  /** `repr` of a string: single quotes unless only the double quote avoids escaping. */
  function ReprString(s: string): string
  {
    var q := if '\'' in s && '"' !in s then '"' else '\'';
    [q] + ReprChars(s, q) + [q]
  }

  function ReprChars(s: string, q: char): string
  {
    if s == [] then "" else ReprChar(s[0], q) + ReprChars(s[1..], q)
  }

  /**
   * One character of a string's `repr`. Below U+0100 this is exact; above it
   * every character is taken as printable.
   */
  function ReprChar(c: char, q: char): string
  {
    if c == q || c == '\\' then ['\\', c]
    else if c == '\t' then "\\t"
    else if c == '\n' then "\\n"
    else if c == '\r' then "\\r"
    else if c < ' ' || '\U{007F}' <= c <= '\U{00A0}' || c == '\U{00AD}' then
      var n := c as int;
      "\\x" + [HexDigit(n / 16), HexDigit(n % 16)]
    else [c]
  }

  function HexDigit(d: int): (c: char)
    requires 0 <= d < 16
    ensures IsHex(c) && HexValue(c) == d
  {
    "0123456789abcdef"[d]
  }

  predicate IsHex(c: char) { '0' <= c <= '9' || 'a' <= c <= 'f' }

  function HexValue(c: char): (d: int)
    requires IsHex(c)
    ensures 0 <= d < 16
  {
    if c <= '9' then (c as int) - ('0' as int) else (c as int) - ('a' as int) + 10
  }

  /**
   * What reading the text between a string literal's quotes gives: the
   * escapes a `repr` writes (`\\`, `\'`, `\"`, `\t`, `\n`, `\r` and
   * `\xhh`) stand for one character each, and any other backslash is an
   * error of this reader.
   */
  function Unrepr(t: string): (r: Option<string>)
    decreases |t|
  {
    if t == [] then Some("")
    else if t[0] != '\\' then
      match Unrepr(t[1..])
      case Some(rest) => Some([t[0]] + rest)
      case None => None
    else if |t| >= 4 && t[1] == 'x' && IsHex(t[2]) && IsHex(t[3]) then
      match Unrepr(t[4..])
      case Some(rest) => Some([(16 * HexValue(t[2]) + HexValue(t[3])) as char] + rest)
      case None => None
    else if |t| >= 2 && t[1] in "\\'\"tnr" then
      var c := if t[1] == 't' then '\t' else if t[1] == 'n' then '\n' else if t[1] == 'r' then '\r' else t[1];
      match Unrepr(t[2..])
      case Some(rest) => Some([c] + rest)
      case None => None
    else None
  }

  /** A character read in front of text that reads as `rest`, or nothing when that text does not read. */
  function Prefixed(c: char, rest: Option<string>): Option<string>
  {
    if rest.Some? then Some([c] + rest.value) else None
  }

  lemma UnreprPlain(c: char, t: string)
    requires c != '\\'
    ensures Unrepr([c] + t) == Prefixed(c, Unrepr(t))
  {
    assert ([c] + t)[1..] == t;
  }

  lemma UnreprPair(e: char, t: string)
    requires e in "\\'\"tnr"
    ensures Unrepr(['\\', e] + t) ==
      Prefixed(if e == 't' then '\t' else if e == 'n' then '\n' else if e == 'r' then '\r' else e, Unrepr(t))
  {
    assert (['\\', e] + t)[2..] == t;
  }

  lemma UnreprHex(c: char, t: string)
    requires c as int < 256
    ensures Unrepr("\\x" + [HexDigit(c as int / 16), HexDigit(c as int % 16)] + t) == Prefixed(c, Unrepr(t))
  {
    var n := c as int;
    var u := "\\x" + [HexDigit(n / 16), HexDigit(n % 16)] + t;
    assert u[4..] == t;
    assert (16 * (n / 16) + n % 16) as char == c;
  }

  /** Reading back one character's `repr` in front of any text. */
  lemma ReprCharReadsBack(c: char, q: char, t: string)
    requires q == '\'' || q == '"'
    ensures Unrepr(ReprChar(c, q) + t) == Prefixed(c, Unrepr(t))
  {
    if c == q || c == '\\' {
      UnreprPair(c, t);
    } else if c == '\t' {
      UnreprPair('t', t);
    } else if c == '\n' {
      UnreprPair('n', t);
    } else if c == '\r' {
      UnreprPair('r', t);
    } else if c < ' ' || '\U{007F}' <= c <= '\U{00A0}' || c == '\U{00AD}' {
      UnreprHex(c, t);
    } else {
      UnreprPlain(c, t);
    }
  }

  lemma {:induction false} ReprCharsReadBack(s: string, q: char)
    requires q == '\'' || q == '"'
    ensures Unrepr(ReprChars(s, q)) == Some(s)
  {
    if s == [] {
      assert ReprChars(s, q) == [];
    } else {
      var t := ReprChars(s[1..], q);
      assert ReprChars(s, q) == ReprChar(s[0], q) + t;
      ReprCharsReadBack(s[1..], q);
      ReprCharReadsBack(s[0], q, t);
      assert [s[0]] + s[1..] == s;
      assert Prefixed(s[0], Some(s[1..])) == Some(s);
    }
  }

  /**
   * A string's `repr` reads back as the string: it is quoted at both ends,
   * with the double quote exactly when the string holds a single quote and
   * no double quote, and the text between the quotes, read, is the string.
   */
  lemma ReprStringReadsBack(s: string)
    ensures var r := ReprString(s);
      |r| >= 2 && r[0] == r[|r| - 1] && (r[0] == '"' <==> '\'' in s && '"' !in s) &&
      (r[0] == '\'' || r[0] == '"') && Unrepr(r[1..|r| - 1]) == Some(s)
  {
    var q := if '\'' in s && '"' !in s then '"' else '\'';
    var r := ReprString(s);
    assert r[1..|r| - 1] == ReprChars(s, q);
    ReprCharsReadBack(s, q);
  }

  /**
   * What a table cell shows for a value: a string as it is, a whole number
   * as its decimal digits (after a minus sign when negative), and `None`,
   * `True`, `False` and a float as Python spells them.
   */
  lemma ShowOfScalars(v: Json)
    ensures v.Str? ==> Show(v) == v.s
    ensures v.Int? ==> (Show(v)[0] == '-' <==> v.i < 0)
    ensures v.Int? && v.i >= 0 ==> AllDigits(Show(v)) && DigitsValue(Show(v)) == v.i
    ensures v.Int? && v.i < 0 ==> AllDigits(Show(v)[1..]) && DigitsValue(Show(v)[1..]) == -v.i
    ensures v.Null? ==> Show(v) == "None"
    ensures v.Bool? ==> Show(v) == if v.b then "True" else "False"
    ensures v.Float? ==> Show(v) == v.repr
  {
  }

  /** A list's `repr` is bracketed and a dictionary's braced. */
  lemma ReprBrackets(v: Json)
    requires v.Arr? || v.Obj?
    ensures var r := Repr(v);
      |r| >= 2 && (v.Arr? ==> r[0] == '[' && r[|r| - 1] == ']') && (v.Obj? ==> r[0] == '{' && r[|r| - 1] == '}')
  {
  }
}
