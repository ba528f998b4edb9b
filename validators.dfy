/**
 * Input validation: API keys, temperatures, token limits and file paths, each
 * answering `(is_valid, message)`, and the file-name sanitiser.
 */
module Validators {
  import opened Wrappers
  import opened Py
  import opened Constants

  // ----- API key -----

  const KeyPrefix: string := "sk-ant-"
  const EmptyKeyMessage: string := "API Key 不能为空"
  const KeyPrefixMessage: string := "无效的 Claude API Key 格式（应以 sk-ant- 开头）"
  const ShortKeyMessage: string := "API Key 长度不足"

  /** Checks on the stripped key: the prefix first, then the length. */
  function ValidateApiKey(apiKey: string): (r: (bool, string))
    ensures r.0 <==> !Blank(apiKey) && StartsWith(Strip(apiKey), KeyPrefix) && |Strip(apiKey)| >= 20
    ensures r.0 ==> r.1 == ""
    ensures Blank(apiKey) ==> r.1 == EmptyKeyMessage
    ensures !Blank(apiKey) && !StartsWith(Strip(apiKey), KeyPrefix) ==> r.1 == KeyPrefixMessage
    ensures !Blank(apiKey) && StartsWith(Strip(apiKey), KeyPrefix) && |Strip(apiKey)| < 20 ==> r.1 == ShortKeyMessage
  {
    if Blank(apiKey) then (false, EmptyKeyMessage)
    else
      var key := Strip(apiKey);
      if !StartsWith(key, KeyPrefix) then (false, KeyPrefixMessage)
      else if |key| < 20 then (false, ShortKeyMessage)
      else (true, "")
  }

  /** Whitespace around a key changes nothing about its verdict. */
  lemma ApiKeyIgnoresSurroundingSpace(c: char, key: string)
    requires IsSpace(c)
    ensures ValidateApiKey([c] + key) == ValidateApiKey(key)
    ensures ValidateApiKey(key + [c]) == ValidateApiKey(key)
  {
    StripCons(c, key);
    StripSnoc(key, c);
    StripEmptyIffBlank(key);
    StripEmptyIffBlank([c] + key);
    StripEmptyIffBlank(key + [c]);
  }

  // ----- Temperature and token limit -----

  /** The numeric value of an `int` or `float`; `bool` is a subclass of `int`. */
  function Number(v: Value): Option<real> {
    match v
    case Int(i) => Some(i as real)
    case Float(r) => Some(r)
    case Bool(b) => Some(if b then 1.0 else 0.0)
    case _ => None
  }

  /** The integer value of an `int`, a `bool` counting as 0 or 1. */
  function Integer(v: Value): Option<int> {
    match v
    case Int(i) => Some(i)
    case Bool(b) => Some(if b then 1 else 0)
    case _ => None
  }

  function ValidateTemperature(temperature: Value): (r: (bool, string))
    ensures r.0 <==> Number(temperature).Some? && 0.0 <= Number(temperature).value <= 2.0
    ensures r.0 ==> r.1 == ""
    ensures Number(temperature).None? ==> r.1 == "温度必须是数字"
    ensures Number(temperature).Some? && Number(temperature).value < 0.0 ==> r.1 == "温度不能小于 0"
    ensures Number(temperature).Some? && Number(temperature).value > 2.0 ==> r.1 == "温度不能大于 2"
  {
    match Number(temperature)
    case None => (false, "温度必须是数字")
    case Some(t) =>
      if t < 0.0 then (false, "温度不能小于 0")
      else if t > 2.0 then (false, "温度不能大于 2")
      else (true, "")
  }

  function ValidateMaxTokens(maxTokens: Value): (r: (bool, string))
    ensures r.0 <==> Integer(maxTokens).Some? && 1 <= Integer(maxTokens).value <= 8192
    ensures r.0 ==> r.1 == ""
    ensures Integer(maxTokens).None? ==> r.1 == "最大 token 数必须是整数"
    ensures Integer(maxTokens).Some? && Integer(maxTokens).value < 1 ==> r.1 == "最大 token 数必须大于 0"
    ensures Integer(maxTokens).Some? && Integer(maxTokens).value > 8192 ==> r.1 == "最大 token 数不能超过 8192"
  {
    match Integer(maxTokens)
    case None => (false, "最大 token 数必须是整数")
    case Some(n) =>
      if n < 1 then (false, "最大 token 数必须大于 0")
      else if n > 8192 then (false, "最大 token 数不能超过 8192")
      else (true, "")
  }

  /** A float is never accepted as a token limit, even a whole one; `True` is. */
  lemma MaxTokensTypeRules()
    ensures !ValidateMaxTokens(Float(100.0)).0
    ensures ValidateMaxTokens(Bool(true)).0 && !ValidateMaxTokens(Bool(false)).0
    ensures ValidateTemperature(Bool(true)).0
  {
  }

  /** The default temperature and token limit, as stored in the default configuration,
      pass their validators. */
  lemma DefaultsValid()
    ensures ValidateTemperature(DefaultConfig[ConfigTemperature]).0
    ensures ValidateMaxTokens(DefaultConfig[ConfigMaxTokens]).0
  {
    DefaultConfigConsistent();
  }

  // ----- File path -----

  /** The characters a path may not contain, in the order they are tested. */
  const PathInvalidChars: seq<char> := ['<', '>', ':', '"', '|', '?', '*']
  const EmptyPathMessage: string := "文件路径不能为空"
  const IllegalCharPrefix: string := "文件路径包含非法字符: "

  /** The first character of `chars`, in list order, that occurs in `path`. */
  function FirstPresent(chars: seq<char>, path: string): (r: Option<nat>)
    ensures r.None? <==> forall k :: 0 <= k < |chars| ==> chars[k] !in path
    ensures r.Some? ==> r.value < |chars| && chars[r.value] in path
    ensures r.Some? ==> forall k :: 0 <= k < r.value ==> chars[k] !in path
  {
    if chars == [] then None
    else if chars[0] in path then Some(0)
    else
      match FirstPresent(chars[1..], path)
      case None => None
      case Some(k) => Some(k + 1)
  }

  function FilePathVerdict(path: string): (r: (bool, string))
    ensures Blank(path) ==> r == (false, EmptyPathMessage)
    ensures !Blank(path) ==> (r.0 <==> forall c :: c in PathInvalidChars ==> c !in path)
    ensures r.0 ==> r.1 == ""
    ensures !Blank(path) && !r.0 ==>
              exists k :: 0 <= k < |PathInvalidChars| && PathInvalidChars[k] in path
                && r.1 == IllegalCharPrefix + [PathInvalidChars[k]]
                && forall j :: 0 <= j < k ==> PathInvalidChars[j] !in path
  {
    if Blank(path) then (false, EmptyPathMessage)
    else
      match FirstPresent(PathInvalidChars, path)
      case None => (true, "")
      case Some(k) => (false, IllegalCharPrefix + [PathInvalidChars[k]])
  }

  /** The loop over the invalid characters with early return. */
  method ValidateFilePath(path: string) returns (ok: bool, message: string)
    ensures (ok, message) == FilePathVerdict(path)
  {
    if Blank(path) {
      return false, EmptyPathMessage;
    }
    var k := 0;
    while k < |PathInvalidChars|
      invariant 0 <= k <= |PathInvalidChars|
      invariant forall j :: 0 <= j < k ==> PathInvalidChars[j] !in path
    {
      var c := PathInvalidChars[k];
      if c in path {
        FirstPresentAt(PathInvalidChars, path, k);
        return false, IllegalCharPrefix + [c];
      }
      k := k + 1;
    }
    return true, "";
  }

  lemma FirstPresentAt(chars: seq<char>, path: string, k: nat)
    requires k < |chars| && chars[k] in path
    requires forall j :: 0 <= j < k ==> chars[j] !in path
    ensures FirstPresent(chars, path) == Some(k)
  {
  }

  /** The message names the first offending character in list order, not the first
      in the path: "a|b<c" is reported for '<'. */
  lemma FilePathReportsListOrder()
    ensures FilePathVerdict("a|b<c") == (false, IllegalCharPrefix + "<")
  {
    var p := "a|b<c";
    assert p[3] == '<' && !IsSpace(p[0]);
    FirstPresentAt(PathInvalidChars, p, 0);
  }

  // ----- File name -----

  /** The characters replaced by '_', in the order they are replaced. */
  const NameInvalidChars: seq<char> := ['<', '>', ':', '"', '/', '\\', '|', '?', '*']
  const Untitled: string := "untitled"

  /** `s.replace(c, '_')` for a one-character `c`. */
  function ReplaceChar(s: string, c: char): (r: string)
    ensures |r| == |s|
    ensures forall i :: 0 <= i < |s| ==> r[i] == if s[i] == c then '_' else s[i]
  {
    seq(|s|, i requires 0 <= i < |s| => if s[i] == c then '_' else s[i])
  }

  /** Every character of `chars` replaced by '_'. */
  function ReplaceAll(s: string, chars: seq<char>): (r: string)
    ensures |r| == |s|
    ensures forall i :: 0 <= i < |s| ==> r[i] == if s[i] in chars then '_' else s[i]
  {
    seq(|s|, i requires 0 <= i < |s| => if s[i] in chars then '_' else s[i])
  }

  predicate NoInvalidNameChar(s: string) {
    forall i :: 0 <= i < |s| ==> s[i] !in NameInvalidChars
  }

  /** What the sanitiser returns. */
  function Sanitized(filename: string): string {
    var t := Strip(ReplaceAll(filename, NameInvalidChars));
    if t == [] then Untitled else t
  }

  /** The replacement loop, then the trim and the fallback name. */
  method SanitizeFilename(filename: string) returns (r: string)
    ensures r == Sanitized(filename)
  {
    r := filename;
    var k := 0;
    while k < |NameInvalidChars|
      invariant 0 <= k <= |NameInvalidChars|
      invariant r == ReplaceAll(filename, NameInvalidChars[..k])
    {
      assert '_' !in NameInvalidChars[..k + 1];
      assert NameInvalidChars[..k + 1] == NameInvalidChars[..k] + [NameInvalidChars[k]];
      r := ReplaceChar(r, NameInvalidChars[k]);
      k := k + 1;
    }
    assert NameInvalidChars[..k] == NameInvalidChars;
    r := Strip(r);
    if r == [] {
      r := Untitled;
    }
  }

  /** The sanitised name contains none of the nine characters and is never empty. */
  lemma SanitizedIsValid(filename: string)
    ensures NoInvalidNameChar(Sanitized(filename)) && Sanitized(filename) != []
  {
    var u := ReplaceAll(filename, NameInvalidChars);
    var a, b := StripTrimsEnds(u);
    forall i | 0 <= i < |Strip(u)| ensures Strip(u)[i] !in NameInvalidChars {
      assert Strip(u)[i] == u[a + i];
    }
  }

  /** A name that already passes is returned unchanged. */
  lemma SanitizedKeepsValidName(filename: string)
    requires filename != [] && Clean(filename) && NoInvalidNameChar(filename)
    ensures Sanitized(filename) == filename
  {
    assert ReplaceAll(filename, NameInvalidChars) == filename;
    StripClean(filename);
  }

  /** Sanitising twice is sanitising once. */
  lemma SanitizedIdempotent(filename: string)
    ensures Sanitized(Sanitized(filename)) == Sanitized(filename)
  {
    var r := Sanitized(filename);
    SanitizedIsValid(filename);
    var u := ReplaceAll(filename, NameInvalidChars);
    if Strip(u) == [] {
      assert r == Untitled;
      assert Clean(Untitled);
    } else {
      StripIsClean(u);
    }
    SanitizedKeepsValidName(r);
  }

  /** A name that is empty or blank, or only whitespace once the listed characters are
      gone, becomes "untitled". */
  lemma SanitizedBlankIsUntitled(filename: string)
    requires Blank(ReplaceAll(filename, NameInvalidChars))
    ensures Sanitized(filename) == Untitled
  {
    StripEmptyIffBlank(ReplaceAll(filename, NameInvalidChars));
  }

  /** The replacements keep the length and change only the listed characters, each to
      '_'. */
  lemma ReplacementKeepsLength(filename: string)
    ensures var u := ReplaceAll(filename, NameInvalidChars);
            && |u| == |filename|
            && (forall i :: 0 <= i < |u| ==> (u[i] != filename[i] <==> filename[i] in NameInvalidChars))
            && (forall i :: 0 <= i < |u| && u[i] != filename[i] ==> u[i] == '_')
  {
    assert '_' !in NameInvalidChars;
  }

  /** When the replaced name is not blank, so that no fallback is taken, the trim
      removes only whitespace from its ends. */
  lemma SanitizedTrimsEnds(filename: string) returns (a: nat, b: nat)
    requires Strip(ReplaceAll(filename, NameInvalidChars)) != []
    ensures var u := ReplaceAll(filename, NameInvalidChars);
            a <= b <= |u| && Sanitized(filename) == u[a..b] && Blank(u[..a]) && Blank(u[b..])
  {
    a, b := StripTrimsEnds(ReplaceAll(filename, NameInvalidChars));
  }
}
