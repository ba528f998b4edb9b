/**
 * Extraction of bare code from a model response: the lines strictly between the
 * first and the last fence line, trimmed, or the response itself when that would
 * leave nothing.
 */
module CodeExtraction {
  import opened Py
  import opened Wrappers

  const Fence: string := "```"

  /** A line whose trimmed form starts with a code fence. */
  predicate IsFence(line: string) {
    StartsWith(Strip(line), Fence)
  }

  predicate NoFence(lines: seq<string>) {
    forall j :: 0 <= j < |lines| ==> !IsFence(lines[j])
  }

  /** Index of the first fence line, if there is one. */
  function FirstFence(lines: seq<string>): (r: Option<nat>)
    ensures r.None? <==> NoFence(lines)
    ensures r.Some? ==> r.value < |lines| && IsFence(lines[r.value])
    ensures r.Some? ==> forall j :: 0 <= j < r.value ==> !IsFence(lines[j])
  {
    if lines == [] then None
    else if IsFence(lines[0]) then Some(0)
    else
      match FirstFence(lines[1..])
      case None => None
      case Some(k) => Some(k + 1)
  }

  /** Index of the last fence line, if there is one. */
  function LastFence(lines: seq<string>): (r: Option<nat>)
    ensures r.None? <==> NoFence(lines)
    ensures r.Some? ==> r.value < |lines| && IsFence(lines[r.value])
    ensures r.Some? ==> forall j :: r.value < j < |lines| ==> !IsFence(lines[j])
  {
    if lines == [] then None
    else if IsFence(lines[|lines| - 1]) then Some(|lines| - 1)
    else LastFence(lines[..|lines| - 1])
  }

  /** The first fence line is the one with no fence line before it. */
  lemma FirstFenceAt(lines: seq<string>, f: nat)
    requires f < |lines| && IsFence(lines[f])
    requires forall j :: 0 <= j < f ==> !IsFence(lines[j])
    ensures FirstFence(lines) == Some(f)
  {
  }

  /** The last fence line is the one with no fence line after it. */
  lemma LastFenceAt(lines: seq<string>, l: nat)
    requires l < |lines| && IsFence(lines[l])
    requires forall j :: l < j < |lines| ==> !IsFence(lines[j])
    ensures LastFence(lines) == Some(l)
  {
  }

  /** Python's `lines[start:end]`: empty when `start` is not below `end`. */
  function Slice(lines: seq<string>, start: nat, end: nat): seq<string>
    requires start <= |lines| && end <= |lines|
  {
    if start <= end then lines[start..end] else []
  }

  /** What the client returns for a response text. */
  function Extracted(text: string): string {
    var lines := Split(text);
    var start := if FirstFence(lines).Some? then FirstFence(lines).value + 1 else 0;
    var end := if LastFence(lines).Some? then LastFence(lines).value else |lines|;
    var code := Strip(Join(Slice(lines, start, end)));
    if code != [] then code else text
  }

  /** The forward search with early exit: the line after the first fence line, or 0. */
  method FindStart(lines: seq<string>) returns (startIdx: nat)
    ensures startIdx == if FirstFence(lines).Some? then FirstFence(lines).value + 1 else 0
  {
    startIdx := 0;
    var i := 0;
    while i < |lines|
      invariant 0 <= i <= |lines|
      invariant forall j :: 0 <= j < i ==> !IsFence(lines[j])
    {
      if IsFence(lines[i]) {
        startIdx := i + 1;
        break;
      }
      i := i + 1;
    }
    if i < |lines| {
      FirstFenceAt(lines, i);
    }
  }

  /** The backward search with early exit: the last fence line, or the line count. */
  method FindEnd(lines: seq<string>) returns (endIdx: nat)
    ensures endIdx == if LastFence(lines).Some? then LastFence(lines).value else |lines|
  {
    endIdx := |lines|;
    var k := |lines|;
    while k > 0
      invariant 0 <= k <= |lines|
      invariant forall j :: k <= j < |lines| ==> !IsFence(lines[j])
    {
      if IsFence(lines[k - 1]) {
        endIdx := k - 1;
        break;
      }
      k := k - 1;
    }
    if k > 0 {
      LastFenceAt(lines, k - 1);
    }
  }

  /** The two searches, then the slice, join and trim. */
  method ExtractCode(text: string) returns (code: string)
    ensures code == Extracted(text)
  {
    var lines := Split(text);
    var startIdx := FindStart(lines);
    var endIdx := FindEnd(lines);
    var codeLines := Slice(lines, startIdx, endIdx);
    assert Extracted(text) == if Strip(Join(codeLines)) != [] then Strip(Join(codeLines)) else text;
    code := Strip(Join(codeLines));
    if code == [] {
      code := text;
    }
  }

  // ----- What extraction promises -----

  /** The result is either the response itself or a non-empty string with no
      whitespace at either end. */
  lemma ExtractedIsTextOrClean(text: string)
    ensures Extracted(text) == text || (Extracted(text) != [] && Clean(Extracted(text)))
  {
    var lines := Split(text);
    var start := if FirstFence(lines).Some? then FirstFence(lines).value + 1 else 0;
    var end := if LastFence(lines).Some? then LastFence(lines).value else |lines|;
    StripIsClean(Join(Slice(lines, start, end)));
  }

  /** Without fence lines the result is the trimmed response, or the response itself
      when it is whitespace only. */
  lemma ExtractedWithoutFences(text: string)
    requires NoFence(Split(text))
    ensures Extracted(text) == if Blank(text) then text else Strip(text)
  {
    var lines := Split(text);
    assert Slice(lines, 0, |lines|) == lines;
    JoinSplit(text);
    StripEmptyIffBlank(text);
  }

  /** With exactly one fence line nothing lies between the fences, so the response
      comes back unchanged. */
  lemma ExtractedSingleFence(text: string, k: nat)
    requires k < |Split(text)| && IsFence(Split(text)[k])
    requires forall j :: 0 <= j < |Split(text)| && j != k ==> !IsFence(Split(text)[j])
    ensures Extracted(text) == text
  {
    var lines := Split(text);
    FirstFenceAt(lines, k);
    LastFenceAt(lines, k);
    assert Slice(lines, k + 1, k) == [];
  }

  /** With fence lines first at `f` and last at `l`, the result is the trimmed text of
      the lines strictly between them, or the response when that is blank. */
  lemma ExtractedBetweenFences(text: string, f: nat, l: nat)
    requires f < l < |Split(text)|
    requires IsFence(Split(text)[f]) && IsFence(Split(text)[l])
    requires forall j :: 0 <= j < f ==> !IsFence(Split(text)[j])
    requires forall j :: l < j < |Split(text)| ==> !IsFence(Split(text)[j])
    ensures var body := Join(Split(text)[f + 1..l]);
            Extracted(text) == if Blank(body) then text else Strip(body)
  {
    var lines := Split(text);
    FirstFenceAt(lines, f);
    LastFenceAt(lines, l);
    var body := Join(lines[f + 1..l]);
    assert Extracted(text) == if Strip(body) != [] then Strip(body) else text;
    StripEmptyIffBlank(body);
  }

  // ----- Idempotence on fence-free text -----

  /** Dropping one leading whitespace character cannot create a fence line. */
  lemma NoFenceDropFirst(s: string)
    requires s != [] && IsSpace(s[0])
    requires NoFence(Split(s))
    ensures NoFence(Split(s[1..]))
  {
    if s[0] == '\n' {
      NoFenceDropNewline(s);
    } else {
      NoFenceDropBlank(s);
    }
  }

  lemma NoFenceDropNewline(s: string)
    requires s != [] && s[0] == '\n'
    requires NoFence(Split(s))
    ensures NoFence(Split(s[1..]))
  {
    var rest := Split(s[1..]);
    assert Split(s) == [""] + rest;
    forall j | 0 <= j < |rest| ensures !IsFence(rest[j]) {
      assert rest[j] == Split(s)[j + 1];
    }
  }

  lemma NoFenceDropBlank(s: string)
    requires s != [] && IsSpace(s[0]) && s[0] != '\n'
    requires NoFence(Split(s))
    ensures NoFence(Split(s[1..]))
  {
    var rest := Split(s[1..]);
    var l := Split(s);
    assert l == [[s[0]] + rest[0]] + rest[1..];
    StripCons(s[0], rest[0]);
    assert !IsFence(l[0]);
    forall j | 0 <= j < |rest| ensures !IsFence(rest[j]) {
      if j > 0 {
        assert rest[j] == l[j];
      }
    }
  }

  /** Dropping one trailing whitespace character cannot create a fence line. */
  lemma NoFenceDropLast(s: string)
    requires s != [] && IsSpace(s[|s| - 1])
    requires NoFence(Split(s))
    ensures NoFence(Split(s[..|s| - 1]))
  {
    NoFenceSnoc(s, s[..|s| - 1], s[|s| - 1]);
  }

  lemma NoFenceSnoc(s: string, t: string, c: char)
    requires s == t + [c] && IsSpace(c)
    requires NoFence(Split(s))
    ensures NoFence(Split(t))
  {
    SplitSnoc(t, c);
    var l := Split(t);
    var m := Split(s);
    if c != '\n' {
      var n := |l| - 1;
      assert m == l[..n] + [l[n] + [c]];
      assert m[n] == l[n] + [c];
      StripSnoc(l[n], c);
      forall j | 0 <= j < |l| ensures !IsFence(l[j]) {
        if j < n { assert l[j] == m[j]; } else { assert !IsFence(m[n]); }
      }
    } else {
      assert m == l + [""];
      forall j | 0 <= j < |l| ensures !IsFence(l[j]) {
        assert l[j] == m[j];
      }
    }
  }

  lemma {:induction false} NoFenceTrimStart(s: string)
    requires NoFence(Split(s))
    ensures NoFence(Split(TrimStart(s)))
    decreases |s|
  {
    if s != [] && IsSpace(s[0]) {
      NoFenceDropFirst(s);
      NoFenceTrimStart(s[1..]);
    }
  }

  lemma {:induction false} NoFenceTrimEnd(s: string)
    requires NoFence(Split(s))
    ensures NoFence(Split(TrimEnd(s)))
    decreases |s|
  {
    if s != [] && IsSpace(s[|s| - 1]) {
      NoFenceDropLast(s);
      NoFenceTrimEnd(s[..|s| - 1]);
    }
  }

  /** On a response without fence lines, extracting twice is extracting once. */
  lemma ExtractedIdempotentWithoutFences(text: string)
    requires NoFence(Split(text))
    ensures Extracted(Extracted(text)) == Extracted(text)
  {
    ExtractedWithoutFences(text);
    if !Blank(text) {
      NoFenceTrimStart(text);
      NoFenceTrimEnd(TrimStart(text));
      ExtractedWithoutFences(Strip(text));
      StripIdempotent(text);
      StripEmptyIffBlank(text);
      StripEmptyIffBlank(Strip(text));
    }
  }

  /** The lines of a prose line followed by a fenced one-line block. */
  lemma SplitFencedLine(prose: string, body: string)
    requires '\n' !in prose && '\n' !in body
    ensures Split(prose + "\n" + Fence + "\n" + body + "\n" + Fence) == [prose, Fence, body, Fence]
  {
    var inner := body + "\n" + Fence;
    var middle := Fence + "\n" + inner;
    assert prose + "\n" + Fence + "\n" + body + "\n" + Fence == prose + "\n" + middle;
    SplitSingleLine(Fence);
    SplitFirstLine(body, Fence);
    SplitFirstLine(Fence, inner);
    SplitFirstLine(prose, middle);
  }

  /** A line of prose, then a fenced one-line block, yields exactly the block's line. */
  lemma ExtractedFencedLine(prose: string, body: string)
    requires '\n' !in prose && '\n' !in body
    requires !IsFence(prose) && !IsFence(body)
    requires body != [] && Clean(body)
    ensures Extracted(prose + "\n" + Fence + "\n" + body + "\n" + Fence) == body
  {
    var text := prose + "\n" + Fence + "\n" + body + "\n" + Fence;
    SplitFencedLine(prose, body);
    var lines := Split(text);
    assert lines == [prose, Fence, body, Fence];
    StripClean(Fence);
    assert IsFence(lines[1]) && IsFence(lines[3]);
    assert forall j :: 0 <= j < 1 ==> !IsFence(lines[j]);
    ExtractedBetweenFences(text, 1, 3);
    assert lines[2..3] == [body];
    assert Join(lines[2..3]) == body;
    StripClean(body);
  }

  /** "Here:\n```\ndef f(): pass\n```" gives "def f(): pass". */
  lemma ExtractedExample()
    ensures Extracted("Here:" + "\n" + Fence + "\n" + "def f(): pass" + "\n" + Fence) == "def f(): pass"
  {
    StripClean("Here:");
    StripClean("def f(): pass");
    ExtractedFencedLine("Here:", "def f(): pass");
  }
}
