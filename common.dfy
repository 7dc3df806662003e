/** Values and string rules shared by every component: the optional and
    failure-carrying results that stand for C# nulls and exceptions, the
    ordinal string operations the framework calls (Contains, EndsWith,
    TrimEnd, ToLower), the parsers behind bool.Parse / int.Parse and
    Path.Combine. */
module Common {

  datatype Option<+T> = None | Some(value: T) {
    function GetOr(default: T): T {
      match this
      case Some(v) => v
      case None => default
    }
  }

  /** An operation that either returns a value or throws `error`. */
  datatype Result<+T, +E> = Success(value: T) | Failure(error: E)

  /** A configuration store: keys such as "TestSettings:Browser" to the
      text value configured for them; a missing key is a null lookup. */
  type Config = map<string, string>

  function Lookup(config: Config, key: string): (r: Option<string>)
    ensures r.Some? <==> key in config
    ensures r.Some? ==> r.value == config[key]
  {
    if key in config then Some(config[key]) else None
  }

  // ---------------------------------------------------------------------
  // Ordinal string operations

  /** `t` occurs in `s` at index `i`. */
  predicate OccursAt(s: string, t: string, i: nat) {
    i + |t| <= |s| && s[i..i + |t|] == t
  }

  /** String.Contains: `t` occurs somewhere in `s`. */
  predicate Contains(s: string, t: string) {
    exists i: nat | i <= |s| :: OccursAt(s, t, i)
  }

  /** String.EndsWith, compared character by character. */
  predicate EndsWith(s: string, t: string) {
    |t| <= |s| && s[|s| - |t|..] == t
  }

  /** String.TrimEnd(c): drop every trailing `c`. */
  function TrimEnd(s: string, c: char): (r: string)
    ensures |r| <= |s| && r == s[..|r|]
    ensures r == [] || r[|r| - 1] != c
    ensures forall i :: |r| <= i < |s| ==> s[i] == c
  {
    if |s| > 0 && s[|s| - 1] == c then TrimEnd(s[..|s| - 1], c) else s
  }

  /** Trimming a string whose last character is not `c` gives it back. */
  lemma TrimEndIdle(s: string, c: char)
    requires s == [] || s[|s| - 1] != c
    ensures TrimEnd(s, c) == s
  {
  }

  /** Trimming only removes a tail of `c`s, so an occurrence of `t` that does
      not end in `c` survives. */
  lemma ContainsSurvivesTrimEnd(s: string, t: string, c: char)
    requires Contains(s, t)
    requires t != [] && t[|t| - 1] != c
    ensures Contains(TrimEnd(s, c), t)
  {
    var r := TrimEnd(s, c);
    var i: nat :| i <= |s| && OccursAt(s, t, i);
    assert s[i + |t| - 1] == t[|t| - 1];
    assert i + |t| <= |r|;
    assert r[i..i + |t|] == s[i..i + |t|];
    assert OccursAt(r, t, i);
  }

  /** An occurrence in a prefix is an occurrence in the whole string. */
  lemma ContainsPrefix(s: string, u: string, t: string)
    requires Contains(s, t)
    ensures Contains(s + u, t)
  {
    var i: nat :| i <= |s| && OccursAt(s, t, i);
    assert (s + u)[i..i + |t|] == s[i..i + |t|];
    assert OccursAt(s + u, t, i);
  }

  function LowerChar(c: char): (d: char)
    ensures 'A' <= c <= 'Z' ==> d as int == c as int + 32
    ensures !('A' <= c <= 'Z') ==> d == c
    ensures !('A' <= d <= 'Z')
  {
    if 'A' <= c <= 'Z' then (c as int + 32) as char else c
  }

  /** String.ToLower restricted to ASCII letters. */
  function ToLower(s: string): (r: string)
    ensures |r| == |s|
    ensures forall i :: 0 <= i < |s| ==> r[i] == LowerChar(s[i])
  {
    if s == [] then [] else [LowerChar(s[0])] + ToLower(s[1..])
  }

  /** Lowering is idempotent: a lowered string has no upper-case letter left. */
  lemma {:induction false} ToLowerIdempotent(s: string)
    ensures ToLower(ToLower(s)) == ToLower(s)
  {
    var r := ToLower(s);
    var rr := ToLower(r);
    assert |rr| == |r|;
    forall i | 0 <= i < |r| ensures rr[i] == r[i] {
      assert rr[i] == LowerChar(r[i]);
    }
  }

  // ---------------------------------------------------------------------
  // Char.IsWhiteSpace, String.Trim and String.Split on one separator

  /** Char.IsWhiteSpace: the Unicode space separators, the line and
      paragraph separators, and the control characters U+0009 to U+000D,
      U+0085. */
  predicate IsWhiteSpace(c: char) {
    c == ' ' || '\t' <= c <= '\r' || c == '\U{0085}' || c == '\U{00A0}' || c == '\U{1680}'
    || '\U{2000}' <= c <= '\U{200A}' || c == '\U{2028}' || c == '\U{2029}' || c == '\U{202F}'
    || c == '\U{205F}' || c == '\U{3000}'
  }

  /** String.TrimLeading(): the suffix left after the leading white space. */
  function TrimLeading(s: string): (r: string)
    ensures |r| <= |s| && r == s[|s| - |r|..]
    ensures r == [] || !IsWhiteSpace(r[0])
    ensures forall i :: 0 <= i < |s| - |r| ==> IsWhiteSpace(s[i])
  {
    if s != [] && IsWhiteSpace(s[0]) then TrimLeading(s[1..]) else s
  }

  /** String.TrimTrailing(): the prefix left before the trailing white space. */
  function TrimTrailing(s: string): (r: string)
    ensures |r| <= |s| && r == s[..|r|]
    ensures r == [] || !IsWhiteSpace(r[|r| - 1])
    ensures forall i :: |r| <= i < |s| ==> IsWhiteSpace(s[i])
  {
    if s != [] && IsWhiteSpace(s[|s| - 1]) then TrimTrailing(s[..|s| - 1]) else s
  }

  /** String.Trim(). */
  function Trim(s: string): string {
    TrimTrailing(TrimLeading(s))
  }

  /** Leading white space is all TrimLeading looks at: text appended after a
      non-blank string survives it unchanged. */
  lemma {:induction false} TrimLeadingAppend(s: string, t: string)
    requires TrimLeading(s) != []
    ensures TrimLeading(s + t) == TrimLeading(s) + t
  {
    if IsWhiteSpace(s[0]) {
      assert (s + t)[1..] == s[1..] + t;
      TrimLeadingAppend(s[1..], t);
    }
  }

  /** A string that is not blank keeps its first non-blank character
      first when trimmed on both sides. */
  lemma TrimKeepsFirst(s: string)
    requires Trim(s) != []
    ensures TrimLeading(s) != [] && TrimLeading(s)[0] == Trim(s)[0]
  {
    var t := Trim(s);
    assert t == TrimLeading(s)[..|t|];
  }

  /** A string that neither starts nor ends with white space is its own trim. */
  lemma TrimUntouched(s: string)
    requires s == [] || (!IsWhiteSpace(s[0]) && !IsWhiteSpace(s[|s| - 1]))
    ensures TrimLeading(s) == s && Trim(s) == s
  {
  }

  /** String.Split(sep): the pieces between separators, empty ones
      included, so there is always one more piece than separators. */
  function Split(s: string, sep: char): (parts: seq<string>)
    ensures |parts| >= 1
    ensures forall p :: p in parts ==> sep !in p
    ensures sep !in s ==> parts == [s]
  {
    if s == [] then [[]]
    else
      var rest := Split(s[1..], sep);
      if s[0] == sep then [[]] + rest
      else
        assert sep !in s ==> [s[0]] + s[1..] == s;
        [[s[0]] + rest[0]] + rest[1..]
  }

  /** Splitting at the first separator: the text before it is the first
      piece and the text after it splits on its own. */
  lemma {:induction false} SplitAtFirst(s: string, sep: char, t: string)
    requires sep !in s
    ensures Split(s + [sep] + t, sep) == [s] + Split(t, sep)
  {
    if s == [] {
      assert ([sep] + t)[1..] == t;
    } else {
      assert (s + [sep] + t)[1..] == s[1..] + [sep] + t;
      SplitAtFirst(s[1..], sep, t);
      assert [s[0]] + s[1..] == s;
    }
  }

  // ---------------------------------------------------------------------
  // bool.Parse / bool.TryParse and int.Parse / int.TryParse

  /** bool.TryParse: "true" or "false" in any letter case. */
  function ParseBool(s: string): (r: Option<bool>)
    ensures r == Some(true) <==> ToLower(s) == "true"
    ensures r == Some(false) <==> ToLower(s) == "false"
  {
    var l := ToLower(s);
    if l == "true" then Some(true) else if l == "false" then Some(false) else None
  }

  /** bool.ToString(). */
  function BoolText(b: bool): string {
    if b then "True" else "False"
  }

  lemma BoolTextParses(b: bool)
    ensures ParseBool(BoolText(b)) == Some(b)
  {
    assert ToLower("True") == "true";
    assert ToLower("False") == "false";
  }

  const Int32Min: int := -0x8000_0000
  const Int32Max: int := 0x7fff_ffff

  predicate IsDigit(c: char) {
    '0' <= c <= '9'
  }

  predicate AllDigits(s: string) {
    forall i :: 0 <= i < |s| ==> IsDigit(s[i])
  }

  /** The value of a decimal digit string, most significant digit first. */
  function DigitsValue(s: string): (n: nat)
    requires AllDigits(s)
  {
    if s == [] then 0 else DigitsValue(s[..|s| - 1]) * 10 + (s[|s| - 1] as int - '0' as int)
  }

  /** int.TryParse: an optional sign, at least one digit, and a value that
      fits 32 bits. */
  function ParseInt(s: string): (r: Option<int>)
    ensures r.Some? ==> Int32Min <= r.value <= Int32Max
  {
    var neg := |s| > 0 && s[0] == '-';
    var digits := if |s| > 0 && (s[0] == '-' || s[0] == '+') then s[1..] else s;
    if digits == [] || !AllDigits(digits) then None
    else
      var v: int := if neg then 0 - DigitsValue(digits) as int else DigitsValue(digits);
      if Int32Min <= v <= Int32Max then Some(v) else None
  }

  /** The decimal text of a natural number, without leading zeros. */
  function NatText(n: nat): (s: string)
    ensures s != [] && AllDigits(s)
  {
    if n < 10 then [('0' as int + n) as char]
    else NatText(n / 10) + [('0' as int + n % 10) as char]
  }

  lemma {:induction false} NatTextValue(n: nat)
    ensures DigitsValue(NatText(n)) == n
  {
    if n >= 10 {
      NatTextValue(n / 10);
      var s := NatText(n);
      assert s[..|s| - 1] == NatText(n / 10);
    }
  }

  /** int.ToString(). */
  function IntText(i: int): (s: string)
    ensures s != []
  {
    if i < 0 then "-" + NatText(-i) else NatText(i)
  }

  /** Printing a 32-bit integer and parsing it back gives the integer. */
  lemma IntTextParses(i: int)
    requires Int32Min <= i <= Int32Max
    ensures ParseInt(IntText(i)) == Some(i)
  {
    var s := IntText(i);
    if i < 0 {
      NatTextValue(-i);
      assert s[0] == '-' && s[1..] == NatText(-i);
      assert ParseInt(s) == Some(0 - DigitsValue(NatText(-i)));
    } else {
      NatTextValue(i);
      assert s == NatText(i);
      assert IsDigit(s[0]) && s[0] != '-' && s[0] != '+';
      assert ParseInt(s) == Some(DigitsValue(s));
    }
  }

  /** Nothing is both a boolean and an integer text. */
  lemma IntTextIsNotBool(i: int)
    ensures ParseBool(IntText(i)) == None
  {
    var s := IntText(i);
    var l := ToLower(s);
    if i < 0 {
      assert l[0] == '-';
    } else {
      assert IsDigit(s[0]);
      assert IsDigit(l[0]);
    }
    assert l != "true" && l != "false" by {
      assert l[0] != 't' && l[0] != 'f';
    }
  }

  // ---------------------------------------------------------------------
  // Paths

  function Separator(windows: bool): char {
    if windows then '\\' else '/'
  }

  /** Path.Combine(dir, name) for a relative `name`: a separator is put
      between the two unless `dir` is empty or already ends in one. */
  function PathCombine(dir: string, name: string, windows: bool): string {
    if dir == [] then name
    else if dir[|dir| - 1] == Separator(windows) || dir[|dir| - 1] == '/' then dir + name
    else dir + [Separator(windows)] + name
  }

  /** A combined path starts with the directory and ends with the name. */
  lemma PathCombineParts(dir: string, name: string, windows: bool)
    ensures var r := PathCombine(dir, name, windows);
            EndsWith(r, name) && |r| >= |dir| + |name| && r[..|dir|] == dir
  {
    var r := PathCombine(dir, name, windows);
    assert r[|r| - |name|..] == name;
    assert r[..|dir|] == dir;
  }
}
