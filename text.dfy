/** The Python `str` operations the invoice core relies on, over ASCII:
    `strip`, `lower`, `upper`, `replace` of one character, `rfind`/`find`,
    `split` on one character and the `<=` comparison of two strings.
    Unicode case mapping and non-ASCII whitespace are not modelled. */
module Text {

  /** `str.isspace()` on an ASCII character: space, \t, \n, \v, \f, \r and
      the separators \x1c-\x1f. Python's `re` class `\s` matches the same set. */
  predicate IsSpace(c: char) {
    c == ' ' || c == '\t' || c == '\n' || c == '\r' || c == '\U{000B}' || c == '\U{000C}'
    || ('\U{001C}' <= c <= '\U{001F}')
  }

  predicate AllSpace(s: string) {
    forall k :: 0 <= k < |s| ==> IsSpace(s[k])
  }

  predicate IsDigit(c: char) {
    '0' <= c <= '9'
  }

  predicate AllDigits(s: string) {
    forall k :: 0 <= k < |s| ==> IsDigit(s[k])
  }

  /** The number of whitespace characters at the start of `s`. */
  function LeadingSpaces(s: string): (n: nat)
    ensures n <= |s|
    ensures AllSpace(s[..n])
    ensures n < |s| ==> !IsSpace(s[n])
  {
    if |s| > 0 && IsSpace(s[0]) then 1 + LeadingSpaces(s[1..]) else 0
  }

  /** The number of whitespace characters at the end of `s`. */
  function TrailingSpaces(s: string): (n: nat)
    ensures n <= |s|
    ensures AllSpace(s[|s| - n..])
    ensures n < |s| ==> !IsSpace(s[|s| - 1 - n])
  {
    if |s| > 0 && IsSpace(s[|s| - 1]) then
      var p := s[..|s| - 1];
      var m := TrailingSpaces(p);
      assert s[|s| - (m + 1)..] == p[|p| - m..] + [s[|s| - 1]];
      assert m + 1 < |s| ==> s[|s| - 1 - (m + 1)] == p[|p| - 1 - m];
      1 + m
    else
      0
  }

  /** `str.strip()`: the longest slice of `s` that neither starts nor ends
      with whitespace, once only whitespace has been cut from both ends. */
  function Strip(s: string): (r: string)
    ensures |r| <= |s|
  {
    var t := s[LeadingSpaces(s)..];
    t[..|t| - TrailingSpaces(t)]
  }

  /** What `Strip` keeps: a slice of `s`, with only whitespace cut on either
      side, that neither starts nor ends with whitespace, and that is empty
      exactly when `s` is all whitespace. */
  lemma StripShape(s: string)
    ensures Strip(s) != [] ==> !IsSpace(Strip(s)[0]) && !IsSpace(Strip(s)[|Strip(s)| - 1])
    ensures exists i :: 0 <= i <= |s| - |Strip(s)| && Strip(s) == s[i..i + |Strip(s)|]
                        && AllSpace(s[..i]) && AllSpace(s[i + |Strip(s)|..])
    ensures Strip(s) == [] <==> AllSpace(s)
  {
    StripEnds(s);
    StripSlice(s);
    StripEmpty(s);
  }

  lemma StripEnds(s: string)
    ensures Strip(s) != [] ==> !IsSpace(Strip(s)[0]) && !IsSpace(Strip(s)[|Strip(s)| - 1])
  {
    if Strip(s) != [] {
      var a := LeadingSpaces(s);
      var t := s[a..];
      StripAt(s, 0);
      StripAt(s, |Strip(s)| - 1);
      assert t[0] == s[a];
      assert s[a + |Strip(s)| - 1] == t[|t| - 1 - TrailingSpaces(t)];
    }
  }

  lemma StripSlice(s: string)
    ensures var a := LeadingSpaces(s);
      && a <= |s| - |Strip(s)| && Strip(s) == s[a..a + |Strip(s)|]
      && AllSpace(s[..a]) && AllSpace(s[a + |Strip(s)|..])
  {
    StripIsSlice(s);
    StripLeavesSpaces(s);
  }

  lemma StripIsSlice(s: string)
    ensures LeadingSpaces(s) + |Strip(s)| <= |s|
    ensures Strip(s) == s[LeadingSpaces(s)..LeadingSpaces(s) + |Strip(s)|]
  {
    var a := LeadingSpaces(s);
    var t := s[a..];
    var n := |t| - TrailingSpaces(t);
    assert Strip(s) == t[..n];
    TakeOfDrop(s, a, n);
  }

  lemma StripLeavesSpaces(s: string)
    ensures LeadingSpaces(s) + |Strip(s)| <= |s|
    ensures AllSpace(s[LeadingSpaces(s) + |Strip(s)|..])
  {
    var a := LeadingSpaces(s);
    var n := |Strip(s)|;
    DropDrop(s, a, n);
    assert s[a..][n..] == s[a..][|s[a..]| - TrailingSpaces(s[a..])..];
  }

  lemma TakeOfDrop(s: string, a: nat, n: nat)
    requires a + n <= |s|
    ensures s[a..][..n] == s[a..a + n]
  {
  }

  lemma AllSpaceConcat(x: string, y: string)
    requires AllSpace(x) && AllSpace(y)
    ensures AllSpace(x + y)
  {
    forall k | 0 <= k < |x + y|
      ensures IsSpace((x + y)[k])
    {
      if k >= |x| {
        assert (x + y)[k] == y[k - |x|];
      }
    }
  }

  lemma StripEmpty(s: string)
    ensures Strip(s) == [] <==> AllSpace(s)
  {
    var a := LeadingSpaces(s);
    var t := s[a..];
    if Strip(s) == [] {
      assert AllSpace(t) by { assert t[|t| - TrailingSpaces(t)..] == t; }
      AllSpaceConcat(s[..a], t);
      assert s[..a] + t == s;
    }
  }

  /** `str.lower()` on one ASCII character. */
  function LowerChar(c: char): char {
    if 'A' <= c <= 'Z' then (c as int + 32) as char else c
  }

  /** `str.upper()` on one ASCII character. */
  function UpperChar(c: char): char {
    if 'a' <= c <= 'z' then (c as int - 32) as char else c
  }

  /** `str.lower()`: every letter lower-cased, position by position. */
  function ToLower(s: string): (r: string)
    ensures |r| == |s|
    ensures forall k :: 0 <= k < |s| ==> r[k] == LowerChar(s[k])
  {
    if s == [] then [] else [LowerChar(s[0])] + ToLower(s[1..])
  }

  /** `str.upper()`: every letter upper-cased, position by position. */
  function ToUpper(s: string): (r: string)
    ensures |r| == |s|
    ensures forall k :: 0 <= k < |s| ==> r[k] == UpperChar(s[k])
  {
    if s == [] then [] else [UpperChar(s[0])] + ToUpper(s[1..])
  }

  /** `s` and `t` differ at most in the case of their letters. */
  predicate SameUpToCase(s: string, t: string) {
    |s| == |t| && forall k :: 0 <= k < |s| ==> LowerChar(s[k]) == LowerChar(t[k])
  }

  lemma UpperSameUpToCase(s: string)
    ensures SameUpToCase(s, ToUpper(s))
  {
  }

  lemma {:induction false} LeadingSpacesUpToCase(s: string, t: string)
    requires SameUpToCase(s, t)
    ensures LeadingSpaces(s) == LeadingSpaces(t)
  {
    if |s| > 0 {
      assert IsSpace(s[0]) <==> IsSpace(t[0]) by { assert LowerChar(s[0]) == LowerChar(t[0]); }
      assert SameUpToCase(s[1..], t[1..]) by {
        assert forall k :: 0 <= k < |s| - 1 ==> s[1..][k] == s[k + 1] && t[1..][k] == t[k + 1];
      }
      LeadingSpacesUpToCase(s[1..], t[1..]);
    }
  }

  lemma {:induction false} TrailingSpacesUpToCase(s: string, t: string)
    requires SameUpToCase(s, t)
    ensures TrailingSpaces(s) == TrailingSpaces(t)
  {
    if |s| > 0 {
      var n := |s| - 1;
      assert IsSpace(s[n]) <==> IsSpace(t[n]) by { assert LowerChar(s[n]) == LowerChar(t[n]); }
      assert SameUpToCase(s[..n], t[..n]) by {
        assert forall k :: 0 <= k < n ==> s[..n][k] == s[k] && t[..n][k] == t[k];
      }
      TrailingSpacesUpToCase(s[..n], t[..n]);
    }
  }

  /** `strip().lower()` does not see letter case: names equal up to case
      have the same normal form. */
  lemma NormalFormUpToCase(s: string, t: string)
    requires SameUpToCase(s, t)
    ensures ToLower(Strip(s)) == ToLower(Strip(t))
  {
    LeadingSpacesUpToCase(s, t);
    var a := LeadingSpaces(s);
    TrailingSpacesUpToCase(s[a..], t[a..]);
  }

  /** Lower-casing and stripping commute: `lower().strip()` is `strip().lower()`. */
  lemma LowerStripCommute(s: string)
    ensures Strip(ToLower(s)) == ToLower(Strip(s))
  {
    var t := ToLower(s);
    assert SameUpToCase(s, t);
    LeadingSpacesUpToCase(s, t);
    var a := LeadingSpaces(s);
    assert SameUpToCase(s[a..], t[a..]);
    TrailingSpacesUpToCase(s[a..], t[a..]);
    assert |Strip(t)| == |Strip(s)|;
    forall k | 0 <= k < |Strip(s)|
      ensures Strip(t)[k] == ToLower(Strip(s))[k]
    {
      StripAt(s, k);
      StripAt(t, k);
    }
  }

  /** Index `k` of the strip is index `k` past the leading whitespace. */
  lemma StripAt(s: string, k: int)
    requires 0 <= k < |Strip(s)|
    ensures Strip(s)[k] == s[LeadingSpaces(s) + k]
  {
  }


  /** `s.replace(c, '')`: every occurrence of `c` deleted, all other
      characters kept with their multiplicities. */
  function RemoveAll(s: string, c: char): (r: string)
    ensures c !in r
    ensures multiset(r) == multiset(s)[c := 0]
  {
    if s == [] then []
    else if s[0] == c then
      assert multiset(s) == multiset{s[0]} + multiset(s[1..]) by { assert s == [s[0]] + s[1..]; }
      RemoveAll(s[1..], c)
    else
      assert multiset(s) == multiset{s[0]} + multiset(s[1..]) by { assert s == [s[0]] + s[1..]; }
      [s[0]] + RemoveAll(s[1..], c)
  }

  /** `s.replace(c, d)` for single characters. */
  function ReplaceAll(s: string, c: char, d: char): (r: string)
    ensures |r| == |s|
    ensures forall k :: 0 <= k < |s| ==> r[k] == if s[k] == c then d else s[k]
  {
    if s == [] then [] else [if s[0] == c then d else s[0]] + ReplaceAll(s[1..], c, d)
  }

  /** `s.find(c)`: the first index of `c`, or -1. */
  function IndexOf(s: string, c: char): (r: int)
    ensures -1 <= r < |s|
    ensures r == -1 <==> c !in s
    ensures r >= 0 ==> s[r] == c && forall k :: 0 <= k < r ==> s[k] != c
  {
    IndexFrom(s, c, 0)
  }

  /** The first index of `c` at `i` or later, or -1. */
  function IndexFrom(s: string, c: char, i: nat): (r: int)
    requires i <= |s|
    ensures r == -1 || i <= r < |s|
    ensures r == -1 <==> forall k :: i <= k < |s| ==> s[k] != c
    ensures r >= 0 ==> s[r] == c && forall k :: i <= k < r ==> s[k] != c
    decreases |s| - i
  {
    if i == |s| then -1
    else if s[i] == c then i
    else IndexFrom(s, c, i + 1)
  }

  /** `s.rfind(c)`: the last index of `c`, or -1. */
  function LastIndexOf(s: string, c: char): (r: int)
    ensures -1 <= r < |s|
    ensures r == -1 <==> c !in s
    ensures r >= 0 ==> s[r] == c && forall k :: r < k < |s| ==> s[k] != c
  {
    LastIndexBelow(s, c, |s|)
  }

  /** The last index of `c` before `j`, or -1. */
  function LastIndexBelow(s: string, c: char, j: nat): (r: int)
    requires j <= |s|
    ensures -1 <= r < j
    ensures r == -1 <==> forall k :: 0 <= k < j ==> s[k] != c
    ensures r >= 0 ==> s[r] == c && forall k :: r < k < j ==> s[k] != c
  {
    if j == 0 then -1
    else if s[j - 1] == c then j - 1
    else LastIndexBelow(s, c, j - 1)
  }

  /** Joins `parts` with `sep` between neighbours (`sep.join(parts)`). */
  function Join(parts: seq<string>, sep: char): string
  {
    if parts == [] then []
    else if |parts| == 1 then parts[0]
    else parts[0] + [sep] + Join(parts[1..], sep)
  }

  /** `s.split(sep)` for a one-character separator: the pieces between
      separators, which `Join` puts back together (`SplitJoin`). */
  function Split(s: string, sep: char): (parts: seq<string>)
    ensures |parts| >= 1
    decreases |s|
  {
    var i := IndexOf(s, sep);
    if i < 0 then [s]
    else
      var rest := Split(s[i + 1..], sep);
      [s[..i]] + rest
  }

  /** A character that no index below `i` holds is not in the prefix. */
  lemma AbsentBefore(s: string, c: char, i: int)
    requires 0 <= i <= |s| && forall k :: 0 <= k < i ==> s[k] != c
    ensures c !in s[..i]
  {
  }

  /** One step of a split: the text before the first separator, then the
      split of what follows it. */
  lemma SplitStep(s: string, sep: char, i: int)
    requires i == IndexOf(s, sep) && i >= 0
    ensures Split(s, sep) == [s[..i]] + Split(s[i + 1..], sep)
  {
  }

  /** No piece of a split holds the separator. */
  lemma {:induction false} SplitPiecesFree(s: string, sep: char)
    ensures forall k :: 0 <= k < |Split(s, sep)| ==> sep !in Split(s, sep)[k]
    decreases |s|
  {
    var i := IndexOf(s, sep);
    if i < 0 {
      assert Split(s, sep) == [s];
    } else {
      SplitPiecesFree(s[i + 1..], sep);
      SplitStep(s, sep, i);
      forall k | 0 <= k < |Split(s, sep)|
        ensures sep !in Split(s, sep)[k]
      {
        if k == 0 {
          assert Split(s, sep)[0] == s[..i];
          AbsentBefore(s, sep, i);
        } else {
          assert Split(s, sep)[k] == Split(s[i + 1..], sep)[k - 1];
        }
      }
    }
  }

  /** The last element of a sequence with one more in front is unchanged. */
  lemma LastBehind(x: string, rest: seq<string>)
    requires |rest| >= 1
    ensures Last([x] + rest) == Last(rest)
  {
  }

  /** A string is what comes before index `i`, the character there, and
      what comes after. */
  lemma Around(s: string, i: int)
    requires 0 <= i < |s|
    ensures s == s[..i] + [s[i]] + s[i + 1..]
  {
    assert s[..i] + [s[i]] == s[..i + 1];
  }

  /** Joining the pieces of a split with its separator gives the text back. */
  lemma {:induction false} SplitJoin(s: string, sep: char)
    ensures Join(Split(s, sep), sep) == s
    decreases |s|
  {
    var i := IndexOf(s, sep);
    if i < 0 {
      assert Split(s, sep) == [s];
    } else {
      var rest := Split(s[i + 1..], sep);
      SplitJoin(s[i + 1..], sep);
      var parts := [s[..i]] + rest;
      SplitStep(s, sep, i);
      assert parts[0] == s[..i] && parts[1..] == rest && |parts| >= 2;
      assert Join(parts, sep) == s[..i] + [sep] + Join(rest, sep);
      Around(s, i);
    }
  }

  /** The first piece of a split is the text before the first separator. */
  lemma {:induction false} SplitFirst(s: string, sep: char)
    ensures Split(s, sep)[0] == if sep in s then s[..IndexOf(s, sep)] else s
  {
  }

  /** An index holding `c` with no `c` before it is the first index of `c`. */
  lemma IndexOfAt(s: string, c: char, f: int)
    requires 0 <= f < |s| && s[f] == c && forall k :: 0 <= k < f ==> s[k] != c
    ensures IndexOf(s, c) == f
  {
    var m := IndexOf(s, c);
    assert m <= f;
  }

  /** An index holding `c` with no `c` after it is the last index of `c`. */
  lemma LastIndexOfAt(s: string, c: char, l: int)
    requires 0 <= l < |s| && s[l] == c && forall k :: l < k < |s| ==> s[k] != c
    ensures LastIndexOf(s, c) == l
  {
  }

  /** The last piece of a split is the text after the last separator. */
  lemma {:induction false} SplitLast(s: string, sep: char)
    ensures Last(Split(s, sep)) == s[LastIndexOf(s, sep) + 1..]
    decreases |s|
  {
    var i := IndexOf(s, sep);
    if i < 0 {
      SplitLastWithout(s, sep);
    } else {
      SplitLast(s[i + 1..], sep);
      SplitLastStep(s, sep, i);
    }
  }

  lemma SplitLastWithout(s: string, sep: char)
    requires sep !in s
    ensures Last(Split(s, sep)) == s[LastIndexOf(s, sep) + 1..]
  {
    var parts := Split(s, sep);
    assert parts == [s];
    assert Last(parts) == parts[0] == s;
    assert LastIndexOf(s, sep) + 1 == 0;
    assert s[0..] == s;
  }

  lemma SplitLastStep(s: string, sep: char, i: int)
    requires i == IndexOf(s, sep) && i >= 0
    requires Last(Split(s[i + 1..], sep)) == s[i + 1..][LastIndexOf(s[i + 1..], sep) + 1..]
    ensures Last(Split(s, sep)) == s[LastIndexOf(s, sep) + 1..]
  {
    SplitUnfold(s, sep, i);
    LastIndexOfAfter(s, sep, i);
  }

  /** Past a separator at `i`, the last separator of `s` is that of the rest,
      and the text after it is the same. */
  lemma LastIndexOfAfter(s: string, c: char, i: int)
    requires 0 <= i < |s| && s[i] == c
    ensures s[LastIndexOf(s, c) + 1..] == s[i + 1..][LastIndexOf(s[i + 1..], c) + 1..]
  {
    var tail := s[i + 1..];
    var j := LastIndexOf(tail, c);
    var l := i + 1 + j;
    DropDrop(s, i + 1, j + 1);
    assert s[l] == c by {
      if j >= 0 { assert s[l] == tail[j]; }
    }
    forall k | l < k < |s|
      ensures s[k] != c
    {
      var m := k - i - 1;
      assert s[k] == tail[m] && j < m < |tail|;
      if j == -1 {
        assert tail[m] in tail;
      }
    }
    LastIndexOfAt(s, c, l);
  }

  lemma DropDrop(s: string, a: nat, b: nat)
    requires a + b <= |s|
    ensures s[a..][b..] == s[a + b..]
  {
  }

  function Last(parts: seq<string>): string
    requires |parts| >= 1
  {
    parts[|parts| - 1]
  }

  lemma SplitUnfold(s: string, sep: char, i: int)
    requires i == IndexOf(s, sep) && i >= 0
    ensures Last(Split(s, sep)) == Last(Split(s[i + 1..], sep))
  {
    SplitStep(s, sep, i);
    LastBehind(s[..i], Split(s[i + 1..], sep));
  }

  /** Stripping only removes characters. */
  lemma StripKeepsAbsent(s: string, c: char)
    requires c !in s
    ensures c !in Strip(s)
  {
    var a := LeadingSpaces(s);
    var r := Strip(s);
    assert r == s[a..][..|r|];
    assert forall k :: 0 <= k < |r| ==> r[k] == s[a + k];
  }

  /** `re.sub(r'\s', '', s)`: `s` with every whitespace character deleted;
      RemoveSpacesKeeps, RemoveSpacesConcat and RemoveSpacesUnspaced say that
      everything else is kept, in order. */
  function RemoveSpaces(s: string): (r: string)
    ensures forall k :: 0 <= k < |r| ==> !IsSpace(r[k])
    ensures |r| <= |s|
  {
    if s == [] then [] else (if IsSpace(s[0]) then [] else [s[0]]) + RemoveSpaces(s[1..])
  }

  /** Every character that is not whitespace survives as often as it occurs. */
  lemma {:induction false} RemoveSpacesKeeps(s: string, c: char)
    requires !IsSpace(c)
    ensures multiset(RemoveSpaces(s))[c] == multiset(s)[c]
  {
    if s != [] {
      assert s == [s[0]] + s[1..];
      assert multiset(s) == multiset{s[0]} + multiset(s[1..]);
      RemoveSpacesKeeps(s[1..], c);
    }
  }

  /** A string with no whitespace is left as it is. */
  lemma {:induction false} RemoveSpacesUnspaced(s: string)
    requires forall k :: 0 <= k < |s| ==> !IsSpace(s[k])
    ensures RemoveSpaces(s) == s
  {
    if s != [] {
      assert forall k :: 0 <= k < |s[1..]| ==> !IsSpace(s[1..][k]) by {
        forall k | 0 <= k < |s[1..]| ensures !IsSpace(s[1..][k]) { assert s[1..][k] == s[k + 1]; }
      }
      RemoveSpacesUnspaced(s[1..]);
      assert s == [s[0]] + s[1..];
    }
  }

  lemma {:induction false} RemoveSpacesConcat(a: string, b: string)
    ensures RemoveSpaces(a + b) == RemoveSpaces(a) + RemoveSpaces(b)
  {
    if a == [] {
      assert a + b == b;
    } else {
      assert (a + b)[0] == a[0];
      assert (a + b)[1..] == a[1..] + b;
      RemoveSpacesConcat(a[1..], b);
    }
  }

  lemma {:induction false} RemoveSpacesOfSpaces(s: string)
    requires AllSpace(s)
    ensures RemoveSpaces(s) == []
  {
    if s != [] { RemoveSpacesOfSpaces(s[1..]); }
  }

  /** Stripping first changes nothing once every whitespace character goes. */
  lemma RemoveSpacesStrip(s: string)
    ensures RemoveSpaces(Strip(s)) == RemoveSpaces(s)
  {
    var a := LeadingSpaces(s);
    var r := Strip(s);
    assert s == s[..a] + r + s[a + |r|..];
    RemoveSpacesConcat(s[..a] + r, s[a + |r|..]);
    RemoveSpacesConcat(s[..a], r);
    RemoveSpacesOfSpaces(s[..a]);
    assert AllSpace(s[a + |r|..]);
    RemoveSpacesOfSpaces(s[a + |r|..]);
  }

  lemma {:induction false} RemoveAllConcat(a: string, b: string, c: char)
    ensures RemoveAll(a + b, c) == RemoveAll(a, c) + RemoveAll(b, c)
  {
    if a == [] {
      assert a + b == b;
    } else {
      assert (a + b)[0] == a[0];
      assert (a + b)[1..] == a[1..] + b;
      RemoveAllConcat(a[1..], b, c);
    }
  }

  lemma AbsentFromTail(s: string, c: char)
    requires s != [] && c !in s
    ensures c !in s[1..]
  {
    forall k | 0 <= k < |s| - 1
      ensures s[1..][k] != c
    {
      assert s[1..][k] == s[k + 1];
    }
  }

  lemma RemoveAllAbsent(s: string, c: char)
    requires c !in s
    ensures RemoveAll(s, c) == s
  {
    if s != [] {
      AbsentFromTail(s, c);
      RemoveAllAbsent(s[1..], c);
      assert s == [s[0]] + s[1..];
    }
  }

  lemma ReplaceAllConcat(a: string, b: string, c: char, d: char)
    ensures ReplaceAll(a + b, c, d) == ReplaceAll(a, c, d) + ReplaceAll(b, c, d)
  {
    var l, r := ReplaceAll(a + b, c, d), ReplaceAll(a, c, d) + ReplaceAll(b, c, d);
    assert forall k :: 0 <= k < |l| ==> l[k] == r[k] by {
      forall k | 0 <= k < |l| ensures l[k] == r[k] {
        if k < |a| { assert (a + b)[k] == a[k]; } else { assert (a + b)[k] == b[k - |a|]; }
      }
    }
  }

  lemma ReplaceAllAbsent(s: string, c: char, d: char)
    requires c !in s
    ensures ReplaceAll(s, c, d) == s
  {
    assert forall k :: 0 <= k < |s| ==> ReplaceAll(s, c, d)[k] == s[k];
  }

  /** Every character of `s` is a digit or `c`. */
  predicate DigitsAnd(s: string, c: char) {
    forall k :: 0 <= k < |s| ==> IsDigit(s[k]) || s[k] == c
  }

  /** Deleting the only non-digit character leaves exactly the digits. */
  lemma {:induction false} RemoveAllLeavesDigits(s: string, c: char)
    requires DigitsAnd(s, c) && !IsDigit(c)
    ensures RemoveAll(s, c) == DigitsOf(s)
  {
    if s != [] {
      assert DigitsAnd(s[1..], c) by {
        assert forall k :: 0 <= k < |s| - 1 ==> s[1..][k] == s[k + 1];
      }
      RemoveAllLeavesDigits(s[1..], c);
    }
  }

  /** The digits of `s`, in order, with everything else dropped. */
  function DigitsOf(s: string): (r: string)
    ensures AllDigits(r)
    ensures |r| <= |s|
  {
    if s == [] then [] else (if IsDigit(s[0]) then [s[0]] else []) + DigitsOf(s[1..])
  }

  lemma {:induction false} DigitsOfConcat(a: string, b: string)
    ensures DigitsOf(a + b) == DigitsOf(a) + DigitsOf(b)
  {
    if a != [] {
      assert (a + b)[0] == a[0];
      assert (a + b)[1..] == a[1..] + b;
      DigitsOfConcat(a[1..], b);
      var h := if IsDigit(a[0]) then [a[0]] else [];
      assert DigitsOf(a + b) == h + (DigitsOf(a[1..]) + DigitsOf(b));
      assert DigitsOf(a) == h + DigitsOf(a[1..]);
    } else {
      assert a + b == b;
    }
  }

  lemma {:induction false} DigitsOfDigits(s: string)
    requires AllDigits(s)
    ensures DigitsOf(s) == s
  {
    if s != [] { DigitsOfDigits(s[1..]); }
  }

  /** Deleting a non-digit character keeps the digits and their order. */
  lemma {:induction false} DigitsOfRemoveAll(s: string, c: char)
    requires !IsDigit(c)
    ensures DigitsOf(RemoveAll(s, c)) == DigitsOf(s)
  {
    if s != [] {
      DigitsOfRemoveAll(s[1..], c);
      if s[0] != c { DigitsOfConcat([s[0]], RemoveAll(s[1..], c)); }
    }
  }

  /** Rewriting one non-digit character into another keeps the digits. */
  lemma {:induction false} DigitsOfReplaceAll(s: string, c: char, d: char)
    requires !IsDigit(c) && !IsDigit(d)
    ensures DigitsOf(ReplaceAll(s, c, d)) == DigitsOf(s)
  {
    if s != [] {
      var r := ReplaceAll(s, c, d);
      assert r == [r[0]] + ReplaceAll(s[1..], c, d);
      DigitsOfReplaceAll(s[1..], c, d);
      DigitsOfConcat([r[0]], ReplaceAll(s[1..], c, d));
    }
  }

  /** Python's `a <= b` on strings: code-point lexicographic order. */
  predicate LexLe(a: string, b: string)
    decreases |a|
  {
    if a == [] then true
    else if b == [] then false
    else if a[0] != b[0] then a[0] < b[0]
    else LexLe(a[1..], b[1..])
  }

  lemma {:induction false} LexLeReflexive(a: string)
    ensures LexLe(a, a)
  {
    if a != [] { LexLeReflexive(a[1..]); }
  }

  lemma {:induction false} LexLeTotal(a: string, b: string)
    ensures LexLe(a, b) || LexLe(b, a)
    decreases |a|
  {
    if a != [] && b != [] && a[0] == b[0] { LexLeTotal(a[1..], b[1..]); }
  }

  lemma {:induction false} LexLeTransitive(a: string, b: string, c: string)
    requires LexLe(a, b) && LexLe(b, c)
    ensures LexLe(a, c)
    decreases |a|
  {
    if a != [] && b != [] && c != [] && a[0] == b[0] && b[0] == c[0] {
      LexLeTransitive(a[1..], b[1..], c[1..]);
    }
  }

  lemma {:induction false} LexLeAntisymmetric(a: string, b: string)
    requires LexLe(a, b) && LexLe(b, a)
    ensures a == b
    decreases |a|
  {
    if a != [] && b != [] {
      LexLeAntisymmetric(a[1..], b[1..]);
      assert a == [a[0]] + a[1..] && b == [b[0]] + b[1..];
    }
  }
}
