/** String and sequence helpers shared by every part of the model. */
module Common {

  datatype Option<+T> = None | Some(value: T)

  predicate StartsWith(s: string, prefix: string) {
    |prefix| <= |s| && s[..|prefix|] == prefix
  }

  predicate EndsWith(s: string, suffix: string) {
    |suffix| <= |s| && s[|s| - |suffix|..] == suffix
  }

  /** The parts written one after the other. */
  function Concat(parts: seq<string>): string {
    if |parts| == 0 then "" else parts[0] + Concat(parts[1..])
  }

  /** PHP's implode / JavaScript's join: the parts with `sep` between consecutive ones. */
  function Join(parts: seq<string>, sep: string): string {
    if |parts| == 0 then ""
    else if |parts| == 1 then parts[0]
    else parts[0] + sep + Join(parts[1..], sep)
  }

  lemma {:induction false} JoinAppend(a: seq<string>, b: seq<string>, sep: string)
    requires a != [] && b != []
    ensures Join(a + b, sep) == Join(a, sep) + sep + Join(b, sep)
  {
    if |a| == 1 {
      assert (a + b)[1..] == b;
    } else {
      assert (a + b)[1..] == a[1..] + b;
      JoinAppend(a[1..], b, sep);
    }
  }

  lemma JoinSnoc(parts: seq<string>, p: string, sep: string)
    ensures Join(parts + [p], sep) == if parts == [] then p else Join(parts, sep) + sep + p
  {
    if parts == [] {
      assert parts + [p] == [p];
    } else {
      JoinAppend(parts, [p], sep);
    }
  }

  /** Parts between a non-empty front and a last part add their own separated
      text, or nothing when there are none. */
  lemma JoinMiddle(a: seq<string>, m: seq<string>, z: string, sep: string)
    requires a != []
    ensures Join(a + m + [z], sep) == Join(a, sep) + (if m != [] then sep + Join(m, sep) else "") + sep + z
  {
    if m != [] {
      JoinAppend(a, m, sep);
      JoinSnoc(a + m, z, sep);
    } else {
      assert a + m == a;
      JoinSnoc(a, z, sep);
    }
  }

  lemma TailOfAppend<T>(a: seq<T>, b: seq<T>)
    requires a != []
    ensures (a + b)[0] == a[0] && (a + b)[1..] == a[1..] + b
  {
  }

  lemma AppendAssoc<T>(a: seq<T>, b: seq<T>, c: seq<T>)
    ensures a + (b + c) == (a + b) + c
  {
  }

  /** Four more parts add four separated parts to the text. */
  lemma JoinAppendFour(parts: seq<string>, text: string, a: string, b: string, c: string, d: string, sep: string)
    requires parts != [] && Join(parts, sep) == text
    ensures Join(parts + [a, b, c, d], sep) == text + sep + a + sep + b + sep + c + sep + d
  {
    JoinSnoc(parts, a, sep);
    JoinSnoc(parts + [a], b, sep);
    JoinSnoc(parts + [a] + [b], c, sep);
    JoinSnoc(parts + [a] + [b] + [c], d, sep);
    assert parts + [a] + [b] + [c] + [d] == parts + [a, b, c, d];
  }

  /** Eight parts joined, written out. */
  lemma JoinEight(x0: string, x1: string, x2: string, x3: string, x4: string, x5: string, x6: string, x7: string,
                  sep: string)
    ensures Join([x0, x1, x2, x3, x4, x5, x6, x7], sep) ==
      x0 + sep + x1 + sep + x2 + sep + x3 + sep + x4 + sep + x5 + sep + x6 + sep + x7
  {
    JoinAppendFour([x0], x0, x1, x2, x3, x4, sep);
    JoinAppendFour([x0, x1, x2, x3, x4], x0 + sep + x1 + sep + x2 + sep + x3 + sep + x4, x5, x6, x7, x7, sep);
    JoinSnoc([x0, x1, x2, x3, x4, x5, x6], x7, sep);
    JoinSnoc([x0, x1, x2, x3, x4, x5], x6, sep);
    JoinSnoc([x0, x1, x2, x3, x4], x5, sep);
    assert [x0] + [x1, x2, x3, x4] == [x0, x1, x2, x3, x4];
    assert [x0, x1, x2, x3, x4] + [x5] == [x0, x1, x2, x3, x4, x5];
    assert [x0, x1, x2, x3, x4, x5] + [x6] == [x0, x1, x2, x3, x4, x5, x6];
    assert [x0, x1, x2, x3, x4, x5, x6] + [x7] == [x0, x1, x2, x3, x4, x5, x6, x7];
  }

  lemma {:induction false} ConcatAppend(a: seq<string>, b: seq<string>)
    ensures Concat(a + b) == Concat(a) + Concat(b)
  {
    if a == [] {
      assert a + b == b;
    } else {
      assert (a + b)[1..] == a[1..] + b;
      ConcatAppend(a[1..], b);
    }
  }

  /** A list that agrees with `front` and then ends in `last` concatenates to
      `front`'s text followed by `last`. */
  lemma ConcatSnoc(all: seq<string>, front: seq<string>, last: string)
    requires |all| == |front| + 1 && all[|front|] == last
    requires forall i :: 0 <= i < |front| ==> all[i] == front[i]
    ensures Concat(all) == Concat(front) + last
  {
    assert all == front + [last];
    ConcatAppend(front, [last]);
    assert Concat([last]) == last + Concat([]);
  }

  /** The last character of a concatenation is the last character of its last non-empty part. */
  lemma ConcatEndsWithLast(parts: seq<string>)
    requires parts != [] && parts[|parts| - 1] != ""
    ensures var c := Concat(parts); var l := parts[|parts| - 1];
      c != "" && c[|c| - 1] == l[|l| - 1]
  {
    var front := parts[..|parts| - 1];
    assert parts == front + [parts[|parts| - 1]];
    ConcatAppend(front, [parts[|parts| - 1]]);
  }

  // ---------------------------------------------------------------- digits

  predicate IsDigit(c: char) {
    '0' <= c <= '9'
  }

  predicate AllDigits(s: string) {
    forall i :: 0 <= i < |s| ==> IsDigit(s[i])
  }

  function DigitChar(d: nat): (c: char)
    requires d < 10
    ensures IsDigit(c) && c as int - '0' as int == d
  {
    (48 + d) as char
  }

  /** The decimal digits of `n`, without leading zeros. */
  function NatText(n: nat): (r: string)
    ensures |r| > 0 && AllDigits(r)
  {
    if n < 10 then [DigitChar(n)] else NatText(n / 10) + [DigitChar(n % 10)]
  }

  /** PHP's conversion of an integer to a string. */
  function IntText(i: int): (r: string)
    ensures |r| > 0
  {
    if i < 0 then "-" + NatText(-i) else NatText(i)
  }

  /** The number a string of decimal digits denotes. */
  function DigitsValue(s: string): nat
    requires AllDigits(s)
  {
    if |s| == 0 then 0
    else DigitsValue(s[..|s| - 1]) * 10 + (s[|s| - 1] as int - '0' as int)
  }

  lemma {:induction false} DigitsValueOfNatText(n: nat)
    ensures DigitsValue(NatText(n)) == n
  {
    if n >= 10 {
      var s := NatText(n);
      assert s[..|s| - 1] == NatText(n / 10);
      DigitsValueOfNatText(n / 10);
    }
  }

  /** The longest prefix of `s` made of decimal digits. */
  function LeadingDigits(s: string): (r: string)
    ensures AllDigits(r) && StartsWith(s, r)
  {
    if |s| == 0 || !IsDigit(s[0]) then "" else [s[0]] + LeadingDigits(s[1..])
  }

  lemma {:induction false} LeadingDigitsOfDigits(s: string)
    requires AllDigits(s)
    ensures LeadingDigits(s) == s
  {
    if |s| > 0 {
      LeadingDigitsOfDigits(s[1..]);
    }
  }

  // ---------------------------------------------------------------- removal

  /** PHP's `str_replace(pat, "", s)`: every non-overlapping occurrence of `pat`,
      found from left to right, removed; an empty `pat` leaves `s` as it is. */
  function RemoveAll(s: string, pat: string): string
    decreases |s|
  {
    if |pat| == 0 || |s| < |pat| then s
    else if s[..|pat|] == pat then RemoveAll(s[|pat|..], pat)
    else [s[0]] + RemoveAll(s[1..], pat)
  }

  /** The characters of `s` that are not in `drop`, in their order. */
  function Without(s: string, drop: set<char>): (r: string)
    ensures forall i :: 0 <= i < |r| ==> r[i] !in drop
  {
    if |s| == 0 then ""
    else (if s[0] in drop then "" else [s[0]]) + Without(s[1..], drop)
  }

  lemma {:induction false} RemoveAllOneChar(s: string, c: char)
    ensures RemoveAll(s, [c]) == Without(s, {c})
  {
    if |s| > 0 {
      RemoveAllOneChar(s[1..], c);
    }
  }

  lemma {:induction false} WithoutWithout(s: string, a: set<char>, b: set<char>)
    ensures Without(Without(s, a), b) == Without(s, a + b)
  {
    if |s| > 0 {
      WithoutWithout(s[1..], a, b);
      var head := if s[0] in a then "" else [s[0]];
      WithoutConcat(head, Without(s[1..], a), b);
    }
  }

  lemma {:induction false} WithoutConcat(x: string, y: string, drop: set<char>)
    ensures Without(x + y, drop) == Without(x, drop) + Without(y, drop)
  {
    if |x| > 0 {
      assert (x + y)[1..] == x[1..] + y;
      WithoutConcat(x[1..], y, drop);
    } else {
      assert x + y == y;
    }
  }

  lemma {:induction false} WithoutNothingToDrop(s: string, drop: set<char>)
    requires forall i :: 0 <= i < |s| ==> s[i] !in drop
    ensures Without(s, drop) == s
  {
    if |s| > 0 {
      WithoutNothingToDrop(s[1..], drop);
    }
  }

  /** A character absent from the input stays absent after removals. */
  lemma {:induction false} RemoveAllKeepsAbsent(s: string, pat: string, c: char)
    requires c !in s
    ensures c !in RemoveAll(s, pat)
  {
    if |pat| > 0 && |s| >= |pat| {
      if s[..|pat|] == pat {
        RemoveAllKeepsAbsent(s[|pat|..], pat, c);
      } else {
        RemoveAllKeepsAbsent(s[1..], pat, c);
      }
    }
  }

  /** A pattern whose first character never occurs is never found. */
  lemma {:induction false} RemoveAllNotFound(s: string, pat: string)
    requires |pat| > 0 && pat[0] !in s
    ensures RemoveAll(s, pat) == s
    decreases |s|
  {
    if |s| >= |pat| {
      assert s[..|pat|][0] == s[0];
      RemoveAllNotFound(s[1..], pat);
      assert s == [s[0]] + s[1..];
    }
  }

  // ---------------------------------------------------------------- splitting

  /** The pieces of `s` between occurrences of `c` (PHP's `explode`). */
  function Split(s: string, c: char): (r: seq<string>)
    ensures |r| > 0
    decreases |s|
  {
    if |s| == 0 then [""]
    else
      var rest := Split(s[1..], c);
      if s[0] == c then [""] + rest else [[s[0]] + rest[0]] + rest[1..]
  }

  lemma {:induction false} SplitFree(p: string, c: char)
    requires c !in p
    ensures Split(p, c) == [p]
  {
    if |p| > 0 {
      SplitFree(p[1..], c);
      assert [p[0]] + p[1..] == p;
    }
  }

  lemma {:induction false} SplitPrefix(p: string, t: string, c: char)
    requires c !in p
    ensures Split(p + [c] + t, c) == [p] + Split(t, c)
  {
    if |p| == 0 {
      assert p + [c] + t == [c] + t;
      assert ([c] + t)[1..] == t;
    } else {
      assert (p + [c] + t)[1..] == p[1..] + [c] + t;
      SplitPrefix(p[1..], t, c);
      assert [p[0]] + p[1..] == p;
    }
  }

  /** Splitting undoes joining, when no part contains the separator. */
  lemma {:induction false} SplitJoin(parts: seq<string>, c: char)
    requires parts != []
    requires forall i :: 0 <= i < |parts| ==> c !in parts[i]
    ensures Split(Join(parts, [c]), c) == parts
  {
    if |parts| == 1 {
      SplitFree(parts[0], c);
    } else {
      SplitJoin(parts[1..], c);
      SplitPrefix(parts[0], Join(parts[1..], [c]), c);
      assert parts[0] + [c] + Join(parts[1..], [c]) == Join(parts, [c]);
      assert [parts[0]] + parts[1..] == parts;
    }
  }

  /** The index of the first `c` in `s`, or |s| when there is none. */
  function IndexOf(s: string, c: char): (r: nat)
    ensures r <= |s|
    ensures r < |s| ==> s[r] == c
    ensures forall j :: 0 <= j < r ==> s[j] != c
  {
    if |s| == 0 then 0 else if s[0] == c then 0 else 1 + IndexOf(s[1..], c)
  }
}
