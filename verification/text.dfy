/** The handful of Python `str` methods the log parsers and the vault
    wrapper rely on: `strip()`, `sub in s`, `s.split(sep)` and
    `s.replace(pat, repl)`. */
module Text {
  import opened Base

  /** Python's `str.isspace()` for a single character. */
  predicate IsSpace(c: char) {
    c in {' ', '\t', '\n', '\r', '\U{B}', '\U{C}', '\U{1C}', '\U{1D}', '\U{1E}', '\U{1F}',
          '\U{85}', '\U{A0}', '\U{1680}', '\U{2000}', '\U{2001}', '\U{2002}', '\U{2003}',
          '\U{2004}', '\U{2005}', '\U{2006}', '\U{2007}', '\U{2008}', '\U{2009}', '\U{200A}',
          '\U{2028}', '\U{2029}', '\U{202F}', '\U{205F}', '\U{3000}'}
  }

  predicate AllSpace(s: string) {
    forall i :: 0 <= i < |s| ==> IsSpace(s[i])
  }

  /** Neither end of `s` is whitespace (vacuous for the empty string). */
  predicate Trimmed(s: string) {
    |s| == 0 || (!IsSpace(s[0]) && !IsSpace(s[|s| - 1]))
  }

  /** Number of whitespace characters at the front of `s`. */
  function LeadingSpace(s: string): (n: nat)
    ensures n <= |s|
    ensures AllSpace(s[..n])
    ensures n == |s| || !IsSpace(s[n])
  {
    if |s| > 0 && IsSpace(s[0]) then
      var k := LeadingSpace(s[1..]);
      assert s[1..][..k] == s[1..k + 1];
      1 + k
    else 0
  }

  /** Number of whitespace characters at the back of `s`. */
  function TrailingSpace(s: string): (n: nat)
    ensures n <= |s|
    ensures AllSpace(s[|s| - n..])
    ensures n == |s| || !IsSpace(s[|s| - n - 1])
  {
    if |s| > 0 && IsSpace(s[|s| - 1]) then
      var k := TrailingSpace(s[..|s| - 1]);
      TrailingStep(s, k);
      1 + k
    else 0
  }

  /** Python's `s.strip()`: the longest middle slice with no whitespace at
      either end, everything cut away being whitespace. */
  function Strip(s: string): (r: string)
    ensures Trimmed(r)
    ensures exists a :: 0 <= a && a + |r| <= |s| && r == s[a..a + |r|] && AllSpace(s[..a]) && AllSpace(s[a + |r|..])
  {
    var a := LeadingSpace(s);
    var rest := s[a..];
    var t := TrailingSpace(rest);
    var r := rest[..|rest| - t];
    assert r == s[a..a + |r|];
    assert s[a + |r|..] == rest[|rest| - t..];
    assert Trimmed(r) by {
      if |r| > 0 {
        assert r[0] == rest[0];
        assert r[|r| - 1] == rest[|rest| - t - 1];
      }
    }
    r
  }

  /** The leading whitespace count stops at the first non-space character. */
  lemma {:induction false} LeadingSpaceAt(s: string, k: nat)
    requires k <= |s| && AllSpace(s[..k])
    requires k == |s| || !IsSpace(s[k])
    ensures LeadingSpace(s) == k
  {
    if k > 0 {
      assert s[..k][0] == s[0];
      assert s[1..][..k - 1] == s[..k][1..];
      LeadingSpaceAt(s[1..], k - 1);
    }
  }

  /** The trailing whitespace count stops at the last non-space character. */
  lemma {:induction false} TrailingSpaceAt(s: string, k: nat)
    requires k <= |s| && AllSpace(s[|s| - k..])
    requires k == |s| || !IsSpace(s[|s| - k - 1])
    ensures TrailingSpace(s) == k
  {
    if k > 0 {
      assert s[|s| - k..][k - 1] == s[|s| - 1];
      var u := s[..|s| - 1];
      assert u[|u| - (k - 1)..] == s[|s| - k..][..k - 1];
      if k - 1 < |u| {
        assert u[|u| - (k - 1) - 1] == s[|s| - k - 1];
      }
      TrailingSpaceAt(u, k - 1);
    }
  }

  /** Stripping is determined by its characterisation: whitespace around a
      trimmed core strips to that core. */
  lemma StripAround(pre: string, core: string, post: string)
    requires AllSpace(pre) && AllSpace(post) && Trimmed(core)
    ensures Strip(pre + core + post) == core
  {
    var s := pre + core + post;
    if |core| == 0 {
      assert s == pre + post;
      assert s[..|s|] == s;
      LeadingSpaceAt(s, |s|);
      assert s[|s|..] == [];
      TrailingSpaceAt([], 0);
    } else {
      assert s[..|pre|] == pre;
      assert s[|pre|] == core[0];
      LeadingSpaceAt(s, |pre|);
      var rest := s[|pre|..];
      assert rest == core + post;
      assert rest[|rest| - |post|..] == post;
      assert rest[|rest| - |post| - 1] == core[|core| - 1];
      TrailingSpaceAt(rest, |post|);
      assert rest[..|rest| - |post|] == core;
    }
  }

  /** Stripping twice changes nothing. */
  lemma StripIdempotent(s: string)
    ensures Strip(Strip(s)) == Strip(s)
  {
    var r := Strip(s);
    StripAround([], r, []);
    assert [] + r + [] == r;
  }

  /** Whitespace added around a text does not change its strip. */
  lemma StripPadded(pre: string, s: string, post: string)
    requires AllSpace(pre) && AllSpace(post)
    ensures Strip(pre + s + post) == Strip(s)
  {
    var x, y := StripParts(s);
    AllSpaceJoin(pre, x);
    AllSpaceJoin(y, post);
    Surround(pre, x, Strip(s), y, post);
    StripAround(pre + x, Strip(s), y + post);
  }

  /** A text is its strip with the stripped whitespace on either side. */
  lemma StripParts(s: string) returns (x: string, y: string)
    ensures AllSpace(x) && AllSpace(y) && s == x + Strip(s) + y
  {
    var r := Strip(s);
    var a :| 0 <= a && a + |r| <= |s| && r == s[a..a + |r|] && AllSpace(s[..a]) && AllSpace(s[a + |r|..]);
    x, y := s[..a], s[a + |r|..];
    SliceThree(s, a, a + |r|);
  }

  lemma SliceThree(s: string, a: nat, b: nat)
    requires a <= b <= |s|
    ensures s == s[..a] + s[a..b] + s[b..]
  {
  }

  /** One more whitespace character at the back extends the count of the
      text before it. */
  lemma TrailingStep(s: string, k: nat)
    requires |s| > 0 && IsSpace(s[|s| - 1])
    requires k <= |s| - 1 && AllSpace(s[..|s| - 1][|s| - 1 - k..])
    requires k == |s| - 1 || !IsSpace(s[..|s| - 1][|s| - 2 - k])
    ensures AllSpace(s[|s| - (k + 1)..])
    ensures k + 1 == |s| || !IsSpace(s[|s| - (k + 1) - 1])
  {
    var head := s[..|s| - 1];
    forall i | |s| - (k + 1) <= i < |s|
      ensures IsSpace(s[i])
    {
      if i < |s| - 1 {
        assert s[i] == head[|s| - 1 - k..][i - (|s| - 1 - k)];
      }
    }
  }

  lemma Surround(pre: string, x: string, r: string, y: string, post: string)
    ensures pre + (x + r + y) + post == (pre + x) + r + (y + post)
  {
  }

  lemma AllSpaceJoin(x: string, y: string)
    requires AllSpace(x) && AllSpace(y)
    ensures AllSpace(x + y)
  {
    forall i | 0 <= i < |x + y|
      ensures IsSpace((x + y)[i])
    {
      if i >= |x| {
        assert (x + y)[i] == y[i - |x|];
      }
    }
  }

  /** `sub` occurs in `s` starting at index `i`. */
  predicate OccursAt(s: string, sub: string, i: int) {
    0 <= i && i + |sub| <= |s| && s[i..i + |sub|] == sub
  }

  /** First occurrence of `sub` in `s` at or after `k`. */
  function FindFrom(s: string, sub: string, k: nat): (r: Option<nat>)
    requires k <= |s|
    decreases |s| - k
    ensures r.Some? ==> k <= r.value && OccursAt(s, sub, r.value)
    ensures r.Some? ==> forall j :: k <= j < r.value ==> !OccursAt(s, sub, j)
    ensures r.None? ==> forall j :: k <= j ==> !OccursAt(s, sub, j)
  {
    if OccursAt(s, sub, k) then Some(k)
    else if k == |s| then None
    else FindFrom(s, sub, k + 1)
  }

  /** Python's `s.find(sub)`, with None for -1. */
  function Find(s: string, sub: string): (r: Option<nat>)
    ensures r.Some? ==> OccursAt(s, sub, r.value) && forall j :: 0 <= j < r.value ==> !OccursAt(s, sub, j)
    ensures r.None? ==> forall j :: !OccursAt(s, sub, j)
  {
    FindFrom(s, sub, 0)
  }

  /** Python's `sub in s`. */
  predicate Contains(s: string, sub: string) {
    Find(s, sub).Some?
  }

  lemma ContainsIff(s: string, sub: string)
    ensures Contains(s, sub) <==> exists j :: OccursAt(s, sub, j)
  {
    if Contains(s, sub) {
      assert OccursAt(s, sub, Find(s, sub).value);
    }
  }

  /** A text that contains a string contains each of its prefixes. */
  lemma ContainsPrefixOf(s: string, sub: string, pre: string)
    requires Contains(s, sub) && |pre| <= |sub| && sub[..|pre|] == pre
    ensures Contains(s, pre)
  {
    var j := Find(s, sub).value;
    assert s[j..j + |pre|] == s[j..j + |sub|][..|pre|];
    assert OccursAt(s, pre, j);
    ContainsIff(s, pre);
  }

  /** A separator that opens `tail` ends the first piece of `head + tail`
      when `head` holds no character that could start it. */
  lemma SplitAtHead(head: string, tail: string, sep: string)
    requires |sep| > 0 && |sep| <= |tail| && tail[..|sep|] == sep && sep[0] !in head
    ensures Split(head + tail, sep)[0] == head
  {
    var s := head + tail;
    assert s[|head|..|head| + |sep|] == tail[..|sep|];
    forall j | 0 <= j < |head|
      ensures !OccursAt(s, sep, j)
    {
      assert s[j] == head[j];
      if j + |sep| <= |s| {
        assert s[j..j + |sep|][0] == s[j];
      }
    }
    SplitFirst(s, sep, |head|);
    assert s[..|head|] == head;
  }

  /** `c` stands at `i` and nowhere else in `s`. */
  lemma Lone(s: string, i: nat, c: char)
    requires i < |s| && s[i] == c && c !in s[..i] && c !in s[i + 1..]
    ensures forall j :: 0 <= j < |s| && j != i ==> s[j] != c
  {
    forall j | 0 <= j < |s| && j != i
      ensures s[j] != c
    {
      if j < i {
        assert s[..i][j] == s[j];
      } else {
        assert s[i + 1..][j - i - 1] == s[j];
      }
    }
  }

  /** A string none of whose characters is `c` contains no text starting with `c`. */
  lemma NotContainsWithoutHead(s: string, sub: string)
    requires |sub| > 0
    requires forall i :: 0 <= i < |s| ==> s[i] != sub[0]
    ensures !Contains(s, sub)
  {
    forall j | 0 <= j && j + |sub| <= |s|
      ensures !OccursAt(s, sub, j)
    {
      assert s[j..j + |sub|][0] == s[j];
    }
  }

  /** When no occurrence of `sub` can start inside `x`, `x + y` holds `sub`
      only if `y` does. */
  lemma NotContainsJoined(x: string, y: string, sub: string)
    requires |sub| > 0
    requires forall j :: 0 <= j < |x| ==> !OccursAt(x + y, sub, j)
    requires !Contains(y, sub)
    ensures !Contains(x + y, sub)
  {
    var s := x + y;
    forall j | |x| <= j
      ensures !OccursAt(s, sub, j)
    {
      if j + |sub| <= |s| {
        assert s[j..j + |sub|] == y[j - |x|..j - |x| + |sub|];
        assert !OccursAt(y, sub, j - |x|);
      }
    }
    ContainsIff(s, sub);
  }

  /** A text holding no `'J'` adds no occurrence of a `'J'`-headed text in
      front of one without it. */
  lemma NotContainsAfterFree(x: string, y: string, sub: string)
    requires |sub| > 0 && sub[0] == 'J' && 'J' !in x && !Contains(y, sub)
    ensures !Contains(x + y, sub)
  {
    var s := x + y;
    forall j | 0 <= j < |x|
      ensures !OccursAt(s, sub, j)
    {
      assert s[j] == x[j];
      if j + |sub| <= |s| {
        assert s[j..j + |sub|][0] == s[j];
      }
    }
    NotContainsJoined(x, y, sub);
  }

  /** A closing line break that `sub` does not hold adds no occurrence of it. */
  lemma NotContainsBeforeBreak(m: string, sub: string)
    requires |sub| > 0 && '\n' !in sub && !Contains(m, sub)
    ensures !Contains(m + "\n", sub)
  {
    var s := m + "\n";
    forall j | 0 <= j
      ensures !OccursAt(s, sub, j)
    {
      if j + |sub| <= |m| {
        assert s[j..j + |sub|] == m[j..j + |sub|];
        assert !OccursAt(m, sub, j);
      } else if j + |sub| == |s| {
        assert s[j..j + |sub|][|sub| - 1] == '\n';
      }
    }
    ContainsIff(s, sub);
  }

  /** Python's `s.split(sep)` for a non-empty separator. */
  function Split(s: string, sep: string): (parts: seq<string>)
    requires |sep| > 0
    ensures |parts| >= 1
    decreases |s|
  {
    match Find(s, sep)
    case None => [s]
    case Some(i) => [s[..i]] + Split(s[i + |sep|..], sep)
  }

  /** Python's `sep.join(parts)`. */
  function Join(parts: seq<string>, sep: string): string
    requires |parts| >= 1
  {
    if |parts| == 1 then parts[0] else parts[0] + sep + Join(parts[1..], sep)
  }

  /** Python's `s.replace(pat, repl)`: every non-overlapping occurrence, left to
      right, which is exactly joining the pieces between occurrences. */
  function Replace(s: string, pat: string, repl: string): string
    requires |pat| > 0
  {
    Join(Split(s, pat), repl)
  }

  /** Joining the pieces back with the separator restores the text. */
  lemma {:induction false} SplitJoin(s: string, sep: string)
    requires |sep| > 0
    ensures Join(Split(s, sep), sep) == s
    decreases |s|
  {
    var f := Find(s, sep);
    if f.Some? {
      var i := f.value;
      var tail := s[i + |sep|..];
      SplitStep(s, sep, i);
      SplitJoin(tail, sep);
      JoinCons(s[..i], Split(tail, sep), sep);
      SliceAround(s, i, sep);
    }
  }

  /** One step of a split: the text before the first separator, then the rest. */
  lemma SplitStep(s: string, sep: string, i: nat)
    requires |sep| > 0 && Find(s, sep) == Some(i)
    ensures Split(s, sep) == [s[..i]] + Split(s[i + |sep|..], sep)
  {
  }

  lemma JoinCons(x: string, rest: seq<string>, sep: string)
    requires |rest| >= 1
    ensures Join([x] + rest, sep) == x + sep + Join(rest, sep)
  {
    assert ([x] + rest)[1..] == rest;
  }

  lemma SliceAround(s: string, i: nat, sep: string)
    requires OccursAt(s, sep, i)
    ensures s == s[..i] + sep + s[i + |sep|..]
  {
    assert s == s[..i] + s[i..i + |sep|] + s[i + |sep|..];
  }

  /** No piece of a split contains the separator. */
  lemma {:induction false} SplitPiecesClean(s: string, sep: string)
    requires |sep| > 0
    ensures forall k :: 0 <= k < |Split(s, sep)| ==> !Contains(Split(s, sep)[k], sep)
    decreases |s|
  {
    match Find(s, sep)
    case None =>
    case Some(i) =>
      var tail := s[i + |sep|..];
      SplitPiecesClean(tail, sep);
      var parts := Split(s, sep);
      assert parts == [s[..i]] + Split(tail, sep);
      if Contains(s[..i], sep) {
        var j := Find(s[..i], sep).value;
        assert s[..i][j..j + |sep|] == s[j..j + |sep|];
        assert OccursAt(s, sep, j);
      }
  }

  /** There is more than one piece exactly when the separator occurs. */
  lemma SplitHasSecond(s: string, sep: string)
    requires |sep| > 0
    ensures |Split(s, sep)| > 1 <==> Contains(s, sep)
  {
  }

  /** The first piece is the text before the first occurrence. */
  lemma SplitFirst(s: string, sep: string, i: nat)
    requires |sep| > 0
    requires OccursAt(s, sep, i)
    requires forall j :: 0 <= j < i ==> !OccursAt(s, sep, j)
    ensures Split(s, sep)[0] == s[..i]
    ensures |Split(s, sep)| > 1
  {
    assert Find(s, sep) == Some(i);
  }

  /** A text without the separator is its own single piece, and replacing in
      it changes nothing. */
  lemma SplitAbsent(s: string, sep: string)
    requires |sep| > 0
    requires !Contains(s, sep)
    ensures Split(s, sep) == [s]
    ensures Replace(s, sep, []) == s
  {
  }

  /** A text in which only position `i` could start `sub`, and `sub` does
      not start there, does not contain `sub`. */
  lemma NotContainsExcept(s: string, sub: string, i: nat)
    requires |sub| > 0
    requires forall j :: 0 <= j < |s| && j != i ==> s[j] != sub[0]
    requires !OccursAt(s, sub, i)
    ensures !Contains(s, sub)
  {
    forall j | 0 <= j && j + |sub| <= |s|
      ensures !OccursAt(s, sub, j)
    {
      assert s[j..j + |sub|][0] == s[j];
    }
  }

  /** When `sep` occurs at `i` and nowhere else could start, the split has
      exactly the two pieces around that occurrence. */
  lemma SplitAtOnly(s: string, sep: string, i: nat)
    requires |sep| > 0 && OccursAt(s, sep, i)
    requires forall j :: 0 <= j < |s| && j != i ==> s[j] != sep[0]
    ensures Split(s, sep) == [s[..i], s[i + |sep|..]]
  {
    forall j | 0 <= j < i && j + |sep| <= |s|
      ensures !OccursAt(s, sep, j)
    {
      assert s[j..j + |sep|][0] == s[j];
    }
    assert Find(s, sep) == Some(i);
    var tail := s[i + |sep|..];
    forall k | 0 <= k < |tail|
      ensures tail[k] != sep[0]
    {
      assert tail[k] == s[i + |sep| + k];
    }
    NotContainsWithoutHead(tail, sep);
    SplitAbsent(tail, sep);
  }
}
