/**
 * The few Python built-ins the application's rules are written in:
 * `str.strip()`, `str.startswith`, `str.split('\n')`, `'\n'.join`, truthiness,
 * and the dynamically typed values stored in the settings dictionary.
 * Strings are sequences of Unicode scalar values.
 */
module Py {

  /** The characters for which Python's `str.isspace()` holds; `str.strip()` with no
      argument removes exactly these from both ends. */
  predicate IsSpace(c: char) {
    || ('\t' <= c <= '\r')
    || ('\U{1C}' <= c <= '\U{1F}')
    || c == ' '
    || c == '\U{85}'
    || c == '\U{A0}'
    || c == '\U{1680}'
    || ('\U{2000}' <= c <= '\U{200A}')
    || c == '\U{2028}'
    || c == '\U{2029}'
    || c == '\U{202F}'
    || c == '\U{205F}'
    || c == '\U{3000}'
  }

  /** Every character is whitespace: `not s.strip()` in Python. */
  predicate Blank(s: string) {
    forall i :: 0 <= i < |s| ==> IsSpace(s[i])
  }

  /** Neither end of `s` is whitespace: what `strip()` leaves behind. */
  predicate Clean(s: string) {
    s == [] || (!IsSpace(s[0]) && !IsSpace(s[|s| - 1]))
  }

  function TrimStart(s: string): string {
    if s != [] && IsSpace(s[0]) then TrimStart(s[1..]) else s
  }

  function TrimEnd(s: string): string {
    if s != [] && IsSpace(s[|s| - 1]) then TrimEnd(s[..|s| - 1]) else s
  }

  /** `s.strip()` */
  function Strip(s: string): string {
    TrimEnd(TrimStart(s))
  }

  /** `s.startswith(p)` */
  predicate StartsWith(s: string, p: string) {
    |p| <= |s| && s[..|p|] == p
  }

  /** `s.split('\n')`: at least one piece, none containing a newline. */
  function Split(s: string): (r: seq<string>)
    ensures |r| >= 1
  {
    if s == [] then [""]
    else
      var rest := Split(s[1..]);
      if s[0] == '\n' then [""] + rest else [[s[0]] + rest[0]] + rest[1..]
  }

  /** `'\n'.join(ls)` */
  function Join(ls: seq<string>): string {
    if ls == [] then ""
    else if |ls| == 1 then ls[0]
    else ls[0] + "\n" + Join(ls[1..])
  }

  /** A dynamically typed value as stored in the settings dictionary. */
  datatype Value = Str(s: string) | Int(i: int) | Float(r: real) | Bool(b: bool) | NoneValue

  /** Python truthiness of a value. */
  predicate Truthy(v: Value) {
    match v
    case Str(s) => s != []
    case Int(i) => i != 0
    case Float(r) => r != 0.0
    case Bool(b) => b
    case NoneValue => false
  }

  // ----- Lemmas about strip -----

  /** `lstrip()` removes a whitespace prefix and stops at the first other character. */
  lemma {:induction false} TrimStartRemovesBlankPrefix(s: string)
    ensures var r := TrimStart(s);
            |r| <= |s| && r == s[|s| - |r|..] && Blank(s[..|s| - |r|]) && (r == [] || !IsSpace(r[0]))
    decreases |s|
  {
    if s != [] && IsSpace(s[0]) {
      TrimStartRemovesBlankPrefix(s[1..]);
      var r := TrimStart(s);
      assert s[..|s| - |r|] == [s[0]] + s[1..][..|s| - 1 - |r|];
    }
  }

  /** `rstrip()` removes a whitespace suffix and stops at the last other character. */
  lemma {:induction false} TrimEndRemovesBlankSuffix(s: string)
    ensures var r := TrimEnd(s);
            |r| <= |s| && r == s[..|r|] && Blank(s[|r|..]) && (r == [] || !IsSpace(r[|r| - 1]))
    decreases |s|
  {
    if s != [] && IsSpace(s[|s| - 1]) {
      TrimEndRemovesBlankSuffix(s[..|s| - 1]);
      var r := TrimEnd(s);
      assert s[|r|..] == s[..|s| - 1][|r|..] + [s[|s| - 1]];
    }
  }

  /** `strip()` yields the empty string exactly for whitespace-only input. */
  lemma StripEmptyIffBlank(s: string)
    ensures Strip(s) == [] <==> Blank(s)
  {
    TrimStartRemovesBlankPrefix(s);
    var t := TrimStart(s);
    if t != [] {
      TrimEndRemovesBlankSuffix(t);
      assert !IsSpace(t[0]);
      assert t[0] == s[|s| - |t|];
      var u := TrimEnd(t);
      assert u == [] ==> Blank(t);
    }
  }

  /** The result of `strip()` has no whitespace at either end. */
  lemma StripIsClean(s: string)
    ensures Clean(Strip(s))
  {
    TrimStartRemovesBlankPrefix(s);
    var t := TrimStart(s);
    TrimEndRemovesBlankSuffix(t);
    var u := TrimEnd(t);
    if u != [] {
      assert u[0] == t[0];
    }
  }

  /** `strip()` removes a whitespace prefix and a whitespace suffix and keeps the
      contiguous middle. */
  lemma StripTrimsEnds(s: string) returns (a: nat, b: nat)
    ensures a <= b <= |s| && Strip(s) == s[a..b] && Blank(s[..a]) && Blank(s[b..])
  {
    TrimStartRemovesBlankPrefix(s);
    var t := TrimStart(s);
    TrimEndRemovesBlankSuffix(t);
    a := |s| - |t|;
    b := a + |TrimEnd(t)|;
    assert t[..|TrimEnd(t)|] == s[a..b];
    assert s[b..] == t[|TrimEnd(t)|..];
  }

  /** `strip()` leaves a clean string unchanged. */
  lemma StripClean(s: string)
    requires Clean(s)
    ensures Strip(s) == s
  {
  }

  /** `strip()` is idempotent. */
  lemma StripIdempotent(s: string)
    ensures Strip(Strip(s)) == Strip(s)
  {
    StripIsClean(s);
    StripClean(Strip(s));
  }

  /** Leading whitespace does not change what `strip()` returns. */
  lemma StripCons(c: char, s: string)
    requires IsSpace(c)
    ensures Strip([c] + s) == Strip(s)
  {
    assert ([c] + s)[1..] == s;
  }

  lemma {:induction false} TrimStartSnoc(s: string, c: char)
    requires IsSpace(c)
    ensures TrimStart(s + [c]) == if Blank(s) then [] else TrimStart(s) + [c]
    decreases |s|
  {
    if s == [] {
      assert TrimStart([c]) == TrimStart([]);
    } else if IsSpace(s[0]) {
      assert (s + [c])[1..] == s[1..] + [c];
      TrimStartSnoc(s[1..], c);
      assert Blank(s) <==> Blank(s[1..]) by {
        if Blank(s[1..]) {
          forall i | 0 <= i < |s| ensures IsSpace(s[i]) {
            if i > 0 { assert s[i] == s[1..][i - 1]; }
          }
        }
      }
    } else {
      assert !Blank(s);
    }
  }

  /** Trailing whitespace does not change what `strip()` returns. */
  lemma StripSnoc(s: string, c: char)
    requires IsSpace(c)
    ensures Strip(s + [c]) == Strip(s)
  {
    TrimStartSnoc(s, c);
    if !Blank(s) {
      var t := TrimStart(s);
      assert (t + [c])[..|t + [c]| - 1] == t;
    } else {
      StripEmptyIffBlank(s);
    }
  }

  // ----- Lemmas about split and join -----

  /** No piece of `split('\n')` contains a newline. */
  lemma {:induction false} SplitPiecesHaveNoNewline(s: string)
    ensures forall j :: 0 <= j < |Split(s)| ==> '\n' !in Split(s)[j]
    decreases |s|
  {
    if s != [] {
      SplitPiecesHaveNoNewline(s[1..]);
    }
  }

  /** `'\n'.join(s.split('\n')) == s` */
  lemma {:induction false} JoinSplit(s: string)
    ensures Join(Split(s)) == s
    decreases |s|
  {
    if s != [] {
      JoinSplit(s[1..]);
      var rest := Split(s[1..]);
      if s[0] == '\n' {
        assert Split(s)[1..] == rest;
      } else {
        var head := [s[0]] + rest[0];
        if |rest| == 1 {
          assert Join(Split(s)) == head;
        } else {
          assert Split(s)[1..] == rest[1..];
          assert Join(rest) == rest[0] + "\n" + Join(rest[1..]);
        }
      }
    }
  }

  /** How `split('\n')` of `s + [c]` relates to `split('\n')` of `s`: a newline opens a
      new empty piece, any other character extends the last piece. */
  predicate SplitsAsSnoc(s: string, c: char) {
    var l := Split(s);
    Split(s + [c]) == if c == '\n' then l + [""] else l[..|l| - 1] + [l[|l| - 1] + [c]]
  }

  /** Splitting a string extended by one character. */
  lemma {:induction false} SplitSnoc(s: string, c: char)
    ensures SplitsAsSnoc(s, c)
    decreases |s|
  {
    if s == [] {
      SplitSnocEmpty(c);
    } else {
      SplitSnoc(s[1..], c);
      if s[0] == '\n' {
        SplitSnocNewline(s, c);
      } else {
        SplitSnocOther(s, c);
      }
    }
  }

  lemma SplitSnocEmpty(c: char)
    ensures SplitsAsSnoc([], c)
  {
    var s: string := [];
    assert s + [c] == [c] && [c][1..] == [];
    assert [c] + "" == [c];
    assert Split([c]) == if c == '\n' then ["", ""] else [[c]];
    var l := Split(s);
    assert l == [""] && l[..0] == [] && l[0] + [c] == [c];
    assert l[..|l| - 1] + [l[|l| - 1] + [c]] == [[c]];
  }

  lemma SplitSnocNewline(s: string, c: char)
    requires s != [] && s[0] == '\n'
    requires SplitsAsSnoc(s[1..], c)
    ensures SplitsAsSnoc(s, c)
  {
    assert (s + [c])[1..] == s[1..] + [c];
    assert (s + [c])[0] == '\n';
    var rest := Split(s[1..]);
    assert Split(s) == [""] + rest;
    assert Split(s + [c]) == [""] + Split(s[1..] + [c]);
  }

  lemma SplitSnocOther(s: string, c: char)
    requires s != [] && s[0] != '\n'
    requires SplitsAsSnoc(s[1..], c)
    ensures SplitsAsSnoc(s, c)
  {
    assert (s + [c])[1..] == s[1..] + [c];
    assert (s + [c])[0] == s[0];
    var rest := Split(s[1..]);
    var rest' := Split(s[1..] + [c]);
    var n := |rest|;
    var l := Split(s);
    assert l == [[s[0]] + rest[0]] + rest[1..];
    assert Split(s + [c]) == [[s[0]] + rest'[0]] + rest'[1..];
    if c == '\n' {
      assert rest' == rest + [""];
      assert rest'[0] == rest[0] && rest'[1..] == rest[1..] + [""];
    } else if n == 1 {
      assert rest' == [rest[0] + [c]];
      assert [s[0]] + (rest[0] + [c]) == ([s[0]] + rest[0]) + [c];
    } else {
      assert rest' == rest[..n - 1] + [rest[n - 1] + [c]];
      assert rest'[0] == rest[0];
      assert rest'[1..] == rest[1..n - 1] + [rest[n - 1] + [c]];
      assert l[..|l| - 1] == [[s[0]] + rest[0]] + rest[1..n - 1];
    }
  }

  /** A string without newlines splits into itself. */
  lemma {:induction false} SplitSingleLine(a: string)
    requires '\n' !in a
    ensures Split(a) == [a]
    decreases |a|
  {
    if a != [] {
      SplitSingleLine(a[1..]);
      assert [a[0]] + a[1..] == a;
    }
  }

  /** Splitting a first line off: `(a + '\n' + b).split('\n') == [a] + b.split('\n')`. */
  lemma {:induction false} SplitFirstLine(a: string, b: string)
    requires '\n' !in a
    ensures Split(a + "\n" + b) == [a] + Split(b)
    decreases |a|
  {
    if a == [] {
      assert a + "\n" + b == "\n" + b && ("\n" + b)[1..] == b;
    } else {
      assert (a + "\n" + b)[1..] == a[1..] + "\n" + b;
      SplitFirstLine(a[1..], b);
      assert [a[0]] + a[1..] == a;
    }
  }
}
