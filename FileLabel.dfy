/** The browser side of the file chooser: when a file is picked, the name shown
    on the chooser is taken from the input's (fake) path, or falls back to the
    caption the server rendered. */
module FileLabel {
  import opened Common
  import opened FileInputs

  /** The path prefix modern browsers put before the chosen file's name. */
  const FakePathPrefix := "C:\\fakepath\\"

  /** The separators tried, in order, when the path has no such prefix. */
  const Separators: seq<char> := ['/', '\\']

  /** JavaScript's `substring(start, end)`: both ends clamped to the string,
      and swapped when `start` is past `end`. */
  function Substring(s: string, start: nat, end: nat): (r: string)
    ensures var lo := if start <= end then start else end;
      var hi := if start <= end then end else start;
      lo <= |s| ==> r == s[lo..if hi <= |s| then hi else |s|]
    ensures |r| <= |s|
  {
    var a := if start <= |s| then start else |s|;
    var b := if end <= |s| then end else |s|;
    if a <= b then s[a..b] else s[b..a]
  }

  /** JavaScript's `lastIndexOf` for one character. */
  function LastIndexOf(s: string, c: char): (r: int)
    ensures -1 <= r < |s|
    ensures r >= 0 ==> s[r] == c && forall j :: r < j < |s| ==> s[j] != c
    ensures r == -1 <==> c !in s
    decreases |s|
  {
    if |s| == 0 then -1
    else if s[|s| - 1] == c then |s| - 1
    else
      var r := LastIndexOf(s[..|s| - 1], c);
      assert s == s[..|s| - 1] + [s[|s| - 1]];
      r
  }

  /** What is after the last occurrence of the first separator in `seps` that
      occurs in the path; nothing when none does. */
  function AfterSeparator(p: string, seps: seq<char>): Option<string>
    decreases |seps|
  {
    if seps == [] then None
    else if LastIndexOf(p, seps[0]) >= 0 then Some(Substring(p, LastIndexOf(p, seps[0]) + 1, |p|))
    else AfterSeparator(p, seps[1..])
  }

  /** `getUploadedFileName`, as a value: `None` is the `undefined` it returns
      when the path has no separator at all. */
  function UploadedFileName(p: string): Option<string> {
    if Substring(p, 0, 12) == FakePathPrefix then Some(Substring(p, 12, |p|))
    else AfterSeparator(p, Separators)
  }

  method GetUploadedFileName(fakePath: string) returns (r: Option<string>)
    ensures r == UploadedFileName(fakePath)
  {
    if Substring(fakePath, 0, 12) == FakePathPrefix {
      return Some(Substring(fakePath, 12, |fakePath|));
    }
    var i := 0;
    while i < |Separators|
      invariant 0 <= i <= |Separators|
      invariant AfterSeparator(fakePath, Separators[i..]) == AfterSeparator(fakePath, Separators)
    {
      var lastSlash := LastIndexOf(fakePath, Separators[i]);
      if lastSlash >= 0 {
        return Some(Substring(fakePath, lastSlash + 1, |fakePath|));
      }
      assert Separators[i..][1..] == Separators[i + 1..];
      i := i + 1;
    }
    return None;
  }

  /** The text put in the chooser's `data-after`: the file name when it is a
      non-empty string, the rendered caption otherwise. */
  function DisplayedLabel(value: string): string {
    var fileName := UploadedFileName(value);
    if fileName.Some? && fileName.value != "" then fileName.value else ChooserCaption
  }

  // ---------------------------------------------------------------- properties

  lemma FakePathShape(p: string)
    ensures Substring(p, 0, 12) == FakePathPrefix <==> StartsWith(p, FakePathPrefix)
  {
  }

  /** The name is always the end of the path. */
  lemma {:induction false} AfterSeparatorIsSuffix(p: string, seps: seq<char>)
    ensures var r := AfterSeparator(p, seps); r.Some? ==> EndsWith(p, r.value)
    decreases |seps|
  {
    if seps != [] && LastIndexOf(p, seps[0]) < 0 {
      AfterSeparatorIsSuffix(p, seps[1..]);
    }
  }

  /** Nothing is found exactly when no separator occurs. */
  lemma {:induction false} AfterSeparatorNone(p: string, seps: seq<char>)
    ensures AfterSeparator(p, seps).None? <==> forall k :: 0 <= k < |seps| ==> seps[k] !in p
    decreases |seps|
  {
    if seps != [] {
      AfterSeparatorNone(p, seps[1..]);
      assert forall k :: 1 <= k < |seps| ==> seps[k] == seps[1..][k - 1];
    }
  }

  /** What follows the last occurrence of `c` is the rest of the path after it
      and holds no `c`. */
  lemma AfterLast(p: string, c: char)
    requires c in p
    ensures var k := LastIndexOf(p, c);
      0 <= k && Substring(p, k + 1, |p|) == p[k + 1..] && c !in p[k + 1..]
  {
    var k := LastIndexOf(p, c);
    var name := p[k + 1..];
    forall j | 0 <= j < |name| ensures name[j] != c {
      assert name[j] == p[k + 1 + j];
    }
  }

  lemma SliceKeepsAbsent(p: string, i: nat, c: char)
    requires i <= |p| && c !in p
    ensures c !in p[i..]
  {
    forall j | 0 <= j < |p[i..]| ensures p[i..][j] != c {
      assert p[i..][j] == p[i + j];
    }
  }

  lemma FakePathName(p: string)
    requires StartsWith(p, FakePathPrefix)
    ensures UploadedFileName(p) == Some(p[12..])
  {
    assert |p| >= 12;
    assert Substring(p, 0, 12) == p[..12] == FakePathPrefix;
    assert Substring(p, 12, |p|) == p[12..];
  }

  /** Without the browser's prefix, the name comes from the separators alone. */
  lemma NoPrefixName(p: string)
    requires !StartsWith(p, FakePathPrefix)
    ensures UploadedFileName(p) == AfterSeparator(p, Separators)
  {
    FakePathShape(p);
  }

  /** The rest of a path after position `k` is preceded there by `p[k]`. */
  lemma SeparatorThenRest(p: string, k: nat)
    requires k < |p|
    ensures EndsWith(p, [p[k]] + p[k + 1..])
  {
    assert p[k..] == [p[k]] + p[k + 1..];
  }

  lemma SlashName(p: string)
    requires !StartsWith(p, FakePathPrefix) && '/' in p
    ensures var r := UploadedFileName(p);
      r.Some? && r.value == p[LastIndexOf(p, '/') + 1..] && EndsWith(p, "/" + r.value) && '/' !in r.value
  {
    NoPrefixName(p);
    AfterLast(p, '/');
    SeparatorThenRest(p, LastIndexOf(p, '/'));
  }

  lemma BackslashName(p: string)
    requires !StartsWith(p, FakePathPrefix) && '/' !in p && '\\' in p
    ensures var r := UploadedFileName(p);
      r.Some? && r.value == p[LastIndexOf(p, '\\') + 1..] && EndsWith(p, "\\" + r.value)
      && '/' !in r.value && '\\' !in r.value
  {
    NoPrefixName(p);
    AfterLast(p, '\\');
    var k := LastIndexOf(p, '\\');
    SliceKeepsAbsent(p, k + 1, '/');
    SeparatorThenRest(p, k);
  }

  /** The extracted name is a suffix of the path; it is `undefined` exactly when
      the path has neither kind of slash; with the browser's prefix it is what
      follows the prefix, and otherwise what follows the last `/` when there is
      one, else the last backslash. */
  lemma UploadedFileNameFacts(p: string)
    ensures var r := UploadedFileName(p); r.Some? ==> EndsWith(p, r.value)
    ensures UploadedFileName(p).None? <==> '/' !in p && '\\' !in p
    ensures StartsWith(p, FakePathPrefix) ==> UploadedFileName(p) == Some(p[12..])
    ensures !StartsWith(p, FakePathPrefix) && '/' in p ==>
      var r := UploadedFileName(p); r.Some? && EndsWith(p, "/" + r.value) && '/' !in r.value
    ensures !StartsWith(p, FakePathPrefix) && '/' !in p && '\\' in p ==>
      var r := UploadedFileName(p);
      r.Some? && EndsWith(p, "\\" + r.value) && '/' !in r.value && '\\' !in r.value
  {
    if StartsWith(p, FakePathPrefix) {
      FakePathName(p);
      assert p[11] == '\\';
      assert p[12..] == p[|p| - |p[12..]|..];
    } else {
      NoPrefixName(p);
      AfterSeparatorIsSuffix(p, Separators);
      AfterSeparatorNone(p, Separators);
      if '/' in p {
        SlashName(p);
      } else if '\\' in p {
        BackslashName(p);
      } else {
        assert UploadedFileName(p).None?;
      }
    }
  }

  /** A cancelled choice (an empty value) or a bare name with no separator
      shows the caption; a chosen file behind the browser's prefix shows its name. */
  lemma DisplayedLabelCases(name: string)
    requires '/' !in name && '\\' !in name
    ensures DisplayedLabel("") == ChooserCaption
    ensures DisplayedLabel(FakePathPrefix + name) == if name == "" then ChooserCaption else name
    ensures DisplayedLabel(name) == ChooserCaption
  {
    var p := FakePathPrefix + name;
    assert p[..12] == FakePathPrefix;
    assert p[12..] == name;
    UploadedFileNameFacts("");
    UploadedFileNameFacts(name);
  }
}
