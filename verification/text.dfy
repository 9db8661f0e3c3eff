/**
 * The JavaScript string operations the application relies on, restated on
 * `seq<char>`: the `\s` character class (which `trim` also strips), `trim`,
 * `split` on one character, `join`, ASCII upper/lower case, the decimal
 * rendering of a natural number, and substring search.
 */
module Text {
  import opened Common

  /** The characters matched by `\s` in a JavaScript regular expression; `trim` removes the same set. */
  predicate IsWhitespace(c: char) {
    var n := c as int;
    n == 0x09 || n == 0x0A || n == 0x0B || n == 0x0C || n == 0x0D || n == 0x20
    || n == 0xA0 || n == 0x1680 || (0x2000 <= n <= 0x200A) || n == 0x2028 || n == 0x2029
    || n == 0x202F || n == 0x205F || n == 0x3000 || n == 0xFEFF
  }

  /** A string that `trim` turns into the empty string. */
  predicate IsBlank(s: string) {
    forall i | 0 <= i < |s| :: IsWhitespace(s[i])
  }

  /** Drops leading whitespace: what is left is a suffix that does not start with whitespace. */
  function TrimStart(s: string): (r: string)
    ensures |r| <= |s| && r == s[|s| - |r|..]
    ensures r == [] || !IsWhitespace(r[0])
  {
    if s != [] && IsWhitespace(s[0]) then
      var r := TrimStart(s[1..]);
      assert s[1..][|s| - 1 - |r|..] == s[|s| - |r|..];
      r
    else s
  }

  /** Everything `TrimStart` drops is whitespace. */
  lemma {:induction false} TrimStartCut(s: string)
    ensures forall i | 0 <= i < |s| - |TrimStart(s)| :: IsWhitespace(s[i])
  {
    if s != [] && IsWhitespace(s[0]) {
      TrimStartCut(s[1..]);
      forall i | 0 <= i < |s| - |TrimStart(s)| ensures IsWhitespace(s[i]) {
        if i > 0 {
          assert s[i] == s[1..][i - 1];
        }
      }
    }
  }

  /** Drops trailing whitespace: what is left is a prefix that does not end with whitespace. */
  function TrimEnd(s: string): (r: string)
    ensures |r| <= |s| && r == s[..|r|]
    ensures r == [] || !IsWhitespace(r[|r| - 1])
  {
    if s != [] && IsWhitespace(s[|s| - 1]) then
      var r := TrimEnd(s[..|s| - 1]);
      assert s[..|s| - 1][..|r|] == s[..|r|];
      r
    else s
  }

  /** Everything `TrimEnd` drops is whitespace. */
  lemma {:induction false} TrimEndCut(s: string)
    ensures forall i | |TrimEnd(s)| <= i < |s| :: IsWhitespace(s[i])
  {
    if s != [] && IsWhitespace(s[|s| - 1]) {
      var init := s[..|s| - 1];
      TrimEndCut(init);
      forall i | |TrimEnd(s)| <= i < |s| ensures IsWhitespace(s[i]) {
        if i < |s| - 1 {
          assert s[i] == init[i];
        }
      }
    }
  }

  /** `String.prototype.trim`. */
  function Trim(s: string): string {
    TrimEnd(TrimStart(s))
  }

  /** A string trims to nothing exactly when every character of it is whitespace. */
  lemma TrimEmptyIffBlank(s: string)
    ensures Trim(s) == [] <==> IsBlank(s)
  {
    var t := TrimStart(s);
    var i := |s| - |t|;
    TrimStartCut(s);
    TrimEndCut(t);
  }

  /** `trim` removes whitespace at both ends and nothing else: the result is a
      slice of the input that neither starts nor ends with whitespace, and
      everything cut away is whitespace. */
  lemma TrimIsSlice(s: string)
    ensures var i := |s| - |TrimStart(s)|;
              && i + |Trim(s)| <= |s|
              && Trim(s) == s[i..i + |Trim(s)|]
              && (forall j | 0 <= j < i :: IsWhitespace(s[j]))
              && (forall j | i + |Trim(s)| <= j < |s| :: IsWhitespace(s[j]))
    ensures Trim(s) == [] || (!IsWhitespace(Trim(s)[0]) && !IsWhitespace(Trim(s)[|Trim(s)| - 1]))
  {
    TrimSlice(s);
    TrimStartCut(s);
    TrimSuffixCut(s);
    TrimEnds(s);
  }

  lemma TrimSlice(s: string)
    ensures var i := |s| - |TrimStart(s)|;
              i + |Trim(s)| <= |s| && Trim(s) == s[i..i + |Trim(s)|]
  {
    var t := TrimStart(s);
    var r := Trim(s);
    var i := |s| - |t|;
    SliceOfSuffix(s, t, r, i);
  }

  /** A prefix of a suffix is a slice. */
  lemma SliceOfSuffix(s: string, t: string, r: string, i: nat)
    requires i <= |s| && t == s[i..] && |r| <= |t| && r == t[..|r|]
    ensures i + |r| <= |s| && r == s[i..i + |r|]
  {
    assert s[i..][..|r|] == s[i..i + |r|];
  }

  lemma TrimSuffixCut(s: string)
    ensures var i := |s| - |TrimStart(s)|;
              forall j | i + |Trim(s)| <= j < |s| :: IsWhitespace(s[j])
  {
    var t := TrimStart(s);
    TrimEndCut(t);
    WhitespaceTailOfSuffix(s, t, |s| - |t|, |TrimEnd(t)|);
  }

  /** Whitespace at the end of a suffix is whitespace at the end of the whole string. */
  lemma WhitespaceTailOfSuffix(s: string, t: string, i: nat, n: nat)
    requires i <= |s| && t == s[i..] && n <= |t|
    requires forall k | n <= k < |t| :: IsWhitespace(t[k])
    ensures forall j | i + n <= j < |s| :: IsWhitespace(s[j])
  {
    forall j | i + n <= j < |s| ensures IsWhitespace(s[j]) {
      assert s[j] == t[j - i];
    }
  }

  lemma TrimEnds(s: string)
    ensures Trim(s) == [] || (!IsWhitespace(Trim(s)[0]) && !IsWhitespace(Trim(s)[|Trim(s)| - 1]))
  {
    var t := TrimStart(s);
    var r := TrimEnd(t);
    if r != [] {
      assert r[0] == t[0];
    }
  }

  function UpperChar(c: char): char {
    if 'a' <= c <= 'z' then (c as int - 32) as char else c
  }

  function LowerChar(c: char): char {
    if 'A' <= c <= 'Z' then (c as int + 32) as char else c
  }

  /** `toUpperCase`, restricted to the ASCII letters. */
  function Upper(s: string): string {
    seq(|s|, i requires 0 <= i < |s| => UpperChar(s[i]))
  }

  /** `toLowerCase`, restricted to the ASCII letters. */
  function Lower(s: string): string {
    seq(|s|, i requires 0 <= i < |s| => LowerChar(s[i]))
  }

  /** `s.split(sep)` for a one-character separator: never empty, no part holds
      the separator, and the first part is everything before the first separator. */
  function Split(s: string, sep: char): (parts: seq<string>)
    ensures |parts| >= 1
    ensures forall k | 0 <= k < |parts| :: sep !in parts[k]
    ensures |parts[0]| <= |s| && parts[0] == s[..|parts[0]|]
    ensures |parts[0]| == |s| || s[|parts[0]|] == sep
  {
    if s == [] then [[]]
    else
      var rest := Split(s[1..], sep);
      if s[0] == sep then [[]] + rest
      else [[s[0]] + rest[0]] + rest[1..]
  }

  /** `parts.join(sep)`. */
  function Join(parts: seq<string>, sep: string): string {
    if parts == [] then []
    else if |parts| == 1 then parts[0]
    else parts[0] + sep + Join(parts[1..], sep)
  }

  /** Splitting on a character and joining back with it gives the original string. */
  lemma {:induction false} JoinSplit(s: string, sep: char)
    ensures Join(Split(s, sep), [sep]) == s
  {
    if s != [] {
      JoinSplit(s[1..], sep);
      var rest := Split(s[1..], sep);
      if s[0] == sep {
        assert Split(s, sep) == [[]] + rest;
        assert ([[]] + rest)[1..] == rest;
      } else {
        assert Split(s, sep) == [[s[0]] + rest[0]] + rest[1..];
        if |rest| > 1 {
          assert rest == [rest[0]] + rest[1..];
          assert ([[s[0]] + rest[0]] + rest[1..])[1..] == rest[1..];
        }
      }
    }
  }

  predicate IsDigit(c: char) {
    '0' <= c <= '9'
  }

  predicate AllDigits(s: string) {
    forall i | 0 <= i < |s| :: IsDigit(s[i])
  }

  function DigitChar(d: nat): (c: char)
    requires d < 10
    ensures IsDigit(c) && c as int - '0' as int == d
  {
    ('0' as int + d) as char
  }

  /** The decimal rendering of a natural number, as a template literal `${n}` produces it. */
  function NatToString(n: nat): (s: string)
    ensures |s| >= 1 && AllDigits(s)
  {
    if n < 10 then [DigitChar(n)] else NatToString(n / 10) + [DigitChar(n % 10)]
  }

  /** The value of a string of decimal digits. */
  function DigitsValue(s: string): nat
    requires AllDigits(s)
  {
    if s == [] then 0 else DigitsValue(s[..|s| - 1]) * 10 + (s[|s| - 1] as int - '0' as int)
  }

  /** Reads a non-empty string of decimal digits. */
  function ParseNat(s: string): Option<nat> {
    if s != [] && AllDigits(s) then Some(DigitsValue(s)) else None
  }

  /** Reading back the decimal rendering of a number gives the number. */
  lemma {:induction false} ParseNatToString(n: nat)
    ensures ParseNat(NatToString(n)) == Some(n)
  {
    var s := NatToString(n);
    if n < 10 {
      assert s[..0] == [];
      assert DigitsValue(s) == DigitsValue(s[..0]) * 10 + (s[0] as int - '0' as int);
    } else {
      ParseNatToString(n / 10);
      assert s[..|s| - 1] == NatToString(n / 10);
    }
  }

  /** `s.startsWith(p)`. */
  predicate StartsWith(s: string, p: string) {
    |p| <= |s| && s[..|p|] == p
  }

  /** `sub` occurs in `s` at position `i`. */
  predicate OccursAt(s: string, sub: string, i: int) {
    0 <= i && i + |sub| <= |s| && s[i..i + |sub|] == sub
  }

  /** `s.includes(sub)`: an occurrence at position 0 or later. */
  predicate Contains(s: string, sub: string) {
    ContainsFrom(s, sub, 0)
  }

  /** An occurrence of `sub` at position `i` or later. */
  predicate ContainsFrom(s: string, sub: string, i: nat)
    decreases |s| - i
  {
    i + |sub| <= |s| && (OccursAt(s, sub, i) || ContainsFrom(s, sub, i + 1))
  }

  lemma {:induction false} ContainsFromAt(s: string, sub: string, i: nat, j: nat)
    requires i <= j && OccursAt(s, sub, j)
    ensures ContainsFrom(s, sub, i)
    decreases j - i
  {
    if i < j {
      ContainsFromAt(s, sub, i + 1, j);
    }
  }

  lemma {:induction false} ContainsFromOccurs(s: string, sub: string, i: nat)
    requires ContainsFrom(s, sub, i)
    ensures exists j | i <= j :: OccursAt(s, sub, j)
    decreases |s| - i
  {
    if !OccursAt(s, sub, i) {
      ContainsFromOccurs(s, sub, i + 1);
    }
  }

  /** `Contains` holds exactly when `sub` occurs somewhere in `s`. */
  lemma ContainsMeansOccurs(s: string, sub: string)
    ensures Contains(s, sub) <==> exists j :: OccursAt(s, sub, j)
  {
    if Contains(s, sub) {
      ContainsFromOccurs(s, sub, 0);
    }
    if exists j :: OccursAt(s, sub, j) {
      var j :| OccursAt(s, sub, j);
      ContainsFromAt(s, sub, 0, j);
    }
  }

  /** An occurrence at `j` makes `s` contain `sub`. */
  lemma ContainsAt(s: string, sub: string, j: nat)
    requires OccursAt(s, sub, j)
    ensures Contains(s, sub)
  {
    ContainsFromAt(s, sub, 0, j);
  }

  /** A string contains each of its infixes. */
  lemma ContainsInfix(a: string, b: string, c: string)
    ensures Contains(a + b + c, b)
  {
    var s := a + b + c;
    assert s[|a|..|a| + |b|] == b;
    ContainsAt(s, b, |a|);
  }

  lemma {:induction false} NotContainsFrom(s: string, sub: string, i: nat)
    requires sub != [] && sub[0] !in s
    ensures !ContainsFrom(s, sub, i)
    decreases |s| - i
  {
    if i + |sub| <= |s| {
      assert s[i..i + |sub|][0] == s[i];
      NotContainsFrom(s, sub, i + 1);
    }
  }

  /** A character that `s` lacks rules out every occurrence of a string starting with it. */
  lemma NotContainsFirst(s: string, sub: string)
    requires sub != [] && sub[0] !in s
    ensures !Contains(s, sub)
  {
    NotContainsFrom(s, sub, 0);
  }

  /** JavaScript truthiness of an optional string: present and not empty. */
  predicate Truthy(s: Option<string>) {
    s.Some? && s.value != []
  }
}
