/**
 * The Python string built-ins the logger relies on, as pure functions over `seq<char>`:
 * `str.split()`, `str.split(sep)`, `str.replace`, `str.strip`, `str.join`,
 * `str.startswith`, `str.endswith` and `str.lower` (ASCII letters only).
 */
module PyStr {

  /** The characters `str.split()` and `str.strip()` treat as whitespace. */
  predicate IsSpace(c: char) {
    || '\t' <= c <= '\r'
    || '\U{1c}' <= c <= '\U{1f}'
    || c == ' ' || c == '\U{85}' || c == '\U{a0}' || c == '\U{1680}'
    || '\U{2000}' <= c <= '\U{200a}'
    || c == '\U{2028}' || c == '\U{2029}' || c == '\U{202f}' || c == '\U{205f}' || c == '\U{3000}'
  }

  ghost predicate NoSpace(s: string) {
    forall i :: 0 <= i < |s| ==> !IsSpace(s[i])
  }

  ghost predicate AllSpace(s: string) {
    forall i :: 0 <= i < |s| ==> IsSpace(s[i])
  }

  /** Length of the longest prefix of `s` without whitespace. */
  function WordLen(s: string): (n: nat)
    ensures n <= |s|
    ensures forall i :: 0 <= i < n ==> !IsSpace(s[i])
    ensures n < |s| ==> IsSpace(s[n])
  {
    if s == [] || IsSpace(s[0]) then 0 else 1 + WordLen(s[1..])
  }

  /** `s.split()`: the maximal runs of non-whitespace characters, in order. */
  function Split(s: string): (r: seq<string>)
    ensures forall i :: 0 <= i < |r| ==> r[i] != [] && NoSpace(r[i])
    decreases |s|
  {
    if s == [] then []
    else if IsSpace(s[0]) then Split(s[1..])
    else
      var n := WordLen(s);
      [s[..n]] + Split(s[n..])
  }

  /** `s.split(sep)` for a one-character separator: always at least one piece. */
  function SplitOn(s: string, sep: char): (r: seq<string>)
    ensures |r| >= 1
    ensures forall i :: 0 <= i < |r| ==> sep !in r[i]
  {
    if s == [] then [[]]
    else
      var rest := SplitOn(s[1..], sep);
      if s[0] == sep then [[]] + rest else [[s[0]] + rest[0]] + rest[1..]
  }

  /** `s.replace(pat, rep)`: leftmost, non-overlapping occurrences are replaced. */
  function Replace(s: string, pat: string, rep: string): string
    requires pat != []
    decreases |s|
  {
    if |s| < |pat| then s
    else if s[..|pat|] == pat then rep + Replace(s[|pat|..], pat, rep)
    else [s[0]] + Replace(s[1..], pat, rep)
  }

  /** `s.replace(c, d)` for one-character strings. */
  function ReplaceChar(s: string, c: char, d: char): (r: string)
    ensures |r| == |s|
    ensures forall i :: 0 <= i < |s| ==> r[i] == if s[i] == c then d else s[i]
  {
    seq(|s|, i requires 0 <= i < |s| => if s[i] == c then d else s[i])
  }

  /** `s.lstrip()`. */
  function LStrip(s: string): (r: string)
    ensures |r| <= |s| && r == s[|s| - |r|..]
    ensures r != [] ==> !IsSpace(r[0])
  {
    if s != [] && IsSpace(s[0]) then LStrip(s[1..]) else s
  }

  /** `s.rstrip()`. */
  function RStrip(s: string): (r: string)
    ensures |r| <= |s| && r == s[..|r|]
    ensures r != [] ==> !IsSpace(r[|r| - 1])
  {
    if s != [] && IsSpace(s[|s| - 1]) then RStrip(s[..|s| - 1]) else s
  }

  /** `s.strip()`. */
  function Strip(s: string): string {
    RStrip(LStrip(s))
  }

  /** `sep.join(items)`. */
  function Join(sep: string, items: seq<string>): string {
    if items == [] then []
    else if |items| == 1 then items[0]
    else items[0] + sep + Join(sep, items[1..])
  }

  /** `s.rsplit(c, maxsplit=1)[0]`: everything before the last `c`, or all of `s`. */
  function BeforeLast(s: string, c: char): (r: string)
    ensures c !in s ==> r == s
    ensures c in s ==> |r| < |s| && r == s[..|r|] && s[|r|] == c && c !in s[|r| + 1..]
  {
    if c !in s then s
    else if s[|s| - 1] == c then s[..|s| - 1]
    else
      var r := BeforeLast(s[..|s| - 1], c);
      assert s[..|s| - 1][|r| + 1..] + [s[|s| - 1]] == s[|r| + 1..];
      r
  }

  /** The part after the last `c`, or all of `s` when it has none. */
  function AfterLast(s: string, c: char): (r: string)
    ensures c !in r && |r| <= |s| && r == s[|s| - |r|..]
    ensures c !in s ==> r == s
    ensures c in s ==> s == BeforeLast(s, c) + [c] + r
  {
    if c !in s then s
    else
      var b := BeforeLast(s, c);
      assert s == s[..|b|] + [c] + s[|b| + 1..];
      s[|b| + 1..]
  }

  /** `s[k]` is the last `c` of `s`, so everything before it is `BeforeLast(s, c)`. */
  lemma BeforeLastAt(s: string, c: char, k: nat)
    requires k < |s| && s[k] == c && c !in s[k + 1..]
    ensures BeforeLast(s, c) == s[..k]
  {
    assert c in s;
  }

  predicate StartsWith(s: string, prefix: string) {
    |prefix| <= |s| && s[..|prefix|] == prefix
  }

  predicate EndsWith(s: string, suffix: string) {
    |suffix| <= |s| && s[|s| - |suffix|..] == suffix
  }

  /** Index of the first occurrence of `c` in `s`. */
  function IndexOf(s: string, c: char): (i: nat)
    requires c in s
    ensures i < |s| && s[i] == c && c !in s[..i]
  {
    if s[0] == c then 0 else 1 + IndexOf(s[1..], c)
  }

  /** The first `c` of `v + rest` is the first character of `rest` when `v` has none. */
  lemma {:induction false} IndexOfAfter(v: string, rest: string, c: char)
    requires c !in v && rest != [] && rest[0] == c
    ensures c in v + rest && IndexOf(v + rest, c) == |v|
    decreases |v|
  {
    assert (v + rest)[|v|] == c;
    if v != [] {
      assert (v + rest)[1..] == v[1..] + rest;
      IndexOfAfter(v[1..], rest, c);
    }
  }

  /** `str.lower()` on one character: ASCII capitals become small letters. */
  function LowerChar(c: char): (d: char)
    ensures 'A' <= c <= 'Z' ==> 'a' <= d <= 'z' && d as int == c as int + 32
    ensures !('A' <= c <= 'Z') ==> d == c
  {
    if 'A' <= c <= 'Z' then (c as int + 32) as char else c
  }

  /** `str.lower()` on ASCII letters; every other character is left as it is. */
  function Lower(s: string): (r: string)
    ensures |r| == |s|
    ensures forall i :: 0 <= i < |s| ==> r[i] == LowerChar(s[i])
  {
    seq(|s|, i requires 0 <= i < |s| => LowerChar(s[i]))
  }

  /** `str.lower()` is idempotent. */
  lemma LowerLower(s: string)
    ensures Lower(Lower(s)) == Lower(s)
  {
  }

  // ---- lemmas ----

  lemma {:induction false} WordLenOfWord(a: string, rest: string)
    requires NoSpace(a)
    requires rest == [] || IsSpace(rest[0])
    ensures WordLen(a + rest) == |a|
    decreases |a|
  {
    if a != [] {
      assert (a + rest)[1..] == a[1..] + rest;
      WordLenOfWord(a[1..], rest);
    } else {
      assert a + rest == rest;
    }
  }

  lemma {:induction false} SplitSkipsSpaces(sp: string, s: string)
    requires AllSpace(sp)
    ensures Split(sp + s) == Split(s)
    decreases |sp|
  {
    if sp != [] {
      assert (sp + s)[1..] == sp[1..] + s;
      SplitSkipsSpaces(sp[1..], s);
    } else {
      assert sp + s == s;
    }
  }

  /** Splitting a join on whitespace gives the items back when they are non-empty words. */
  lemma {:induction false} SplitJoin(sep: string, items: seq<string>)
    requires sep != [] && AllSpace(sep)
    requires forall i :: 0 <= i < |items| ==> items[i] != [] && NoSpace(items[i])
    ensures Split(Join(sep, items)) == items
    decreases |items|
  {
    if |items| == 1 {
      var a := items[0];
      WordLenOfWord(a, []);
      assert a + [] == a;
      assert a[|a|..] == [];
    } else if |items| > 1 {
      var a := items[0];
      var tail := sep + Join(sep, items[1..]);
      assert Join(sep, items) == a + tail;
      WordLenOfWord(a, tail);
      assert (a + tail)[..|a|] == a;
      assert (a + tail)[|a|..] == tail;
      SplitSkipsSpaces(sep, Join(sep, items[1..]));
      SplitJoin(sep, items[1..]);
      assert items == [a] + items[1..];
    }
  }

  /** `pat` occurs in `s` starting at index `i`. */
  ghost predicate OccursAt(s: string, pat: string, i: nat) {
    i + |pat| <= |s| && s[i..i + |pat|] == pat
  }

  /** `replace` leaves a string without any occurrence of the pattern unchanged. */
  lemma {:induction false} ReplaceNoMatch(s: string, pat: string, rep: string)
    requires pat != []
    requires forall i: nat :: i < |s| ==> !OccursAt(s, pat, i)
    ensures Replace(s, pat, rep) == s
    decreases |s|
  {
    if |s| >= |pat| {
      assert !OccursAt(s, pat, 0);
      assert s[0..|pat|] == s[..|pat|];
      forall i: nat | i < |s[1..]| ensures !OccursAt(s[1..], pat, i) {
        assert !OccursAt(s, pat, i + 1);
        if i + |pat| <= |s[1..]| {
          assert s[1..][i..i + |pat|] == s[i + 1..i + 1 + |pat|];
        }
      }
      ReplaceNoMatch(s[1..], pat, rep);
      assert s == [s[0]] + s[1..];
    }
  }

  /** A character replacement distributes over `join`. */
  lemma {:induction false} ReplaceCharJoin(sep: string, items: seq<string>, c: char, d: char)
    requires forall i :: 0 <= i < |items| ==> c !in items[i]
    ensures ReplaceChar(Join(sep, items), c, d) == Join(ReplaceChar(sep, c, d), items)
    decreases |items|
  {
    if |items| == 1 {
      assert ReplaceChar(items[0], c, d) == items[0];
    } else if |items| > 1 {
      ReplaceCharJoin(sep, items[1..], c, d);
      var j := Join(sep, items[1..]);
      assert ReplaceChar(items[0], c, d) == items[0];
      ReplaceCharConcat(items[0], sep, c, d);
      ReplaceCharConcat(items[0] + sep, j, c, d);
    }
  }

  lemma ReplaceCharConcat(a: string, b: string, c: char, d: char)
    ensures ReplaceChar(a + b, c, d) == ReplaceChar(a, c, d) + ReplaceChar(b, c, d)
  {
  }

  /** A character the text does not contain is in none of its words. */
  lemma {:induction false} SplitKeepsAbsent(s: string, c: char)
    requires c !in s
    ensures forall i :: 0 <= i < |Split(s)| ==> c !in Split(s)[i]
    decreases |s|
  {
    if s != [] {
      if IsSpace(s[0]) {
        SplitKeepsAbsent(s[1..], c);
      } else {
        var n := WordLen(s);
        SplitKeepsAbsent(s[n..], c);
        assert Split(s) == [s[..n]] + Split(s[n..]);
        assert c !in s[..n];
      }
    }
  }
}
