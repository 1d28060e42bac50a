/** String primitives the TypeScript code gets from the JavaScript runtime:
    `trim`, `\s`, `join`, `split`, `slice` and substring search.  Strings are
    sequences of code points. */
module Strings {

  /** The ECMAScript WhiteSpace and LineTerminator code points.  This is the set
      `String.prototype.trim` strips and the regular-expression class `\s`
      matches. */
  predicate IsSpace(c: char) {
    || c == '\t' || c == '\n' || c == '\U{000B}' || c == '\U{000C}' || c == '\r'
    || c == ' ' || c == '\U{00A0}' || c == '\U{1680}'
    || ('\U{2000}' <= c <= '\U{200A}')
    || c == '\U{2028}' || c == '\U{2029}' || c == '\U{202F}' || c == '\U{205F}'
    || c == '\U{3000}' || c == '\U{FEFF}'
  }

  predicate AllSpace(s: string) {
    forall i :: 0 <= i < |s| ==> IsSpace(s[i])
  }

  /** Neither end of `s` is whitespace (vacuously true of ""). */
  predicate NoEdgeSpace(s: string) {
    s == [] || (!IsSpace(s[0]) && !IsSpace(s[|s| - 1]))
  }

  /** No two adjacent characters are both whitespace. */
  predicate NoSpaceRun(s: string) {
    forall i :: 0 <= i < |s| - 1 ==> !(IsSpace(s[i]) && IsSpace(s[i + 1]))
  }

  /** `s.trimStart()`: the suffix left after the leading whitespace. */
  function TrimStart(s: string): (r: string)
    ensures |r| <= |s| && r == s[|s| - |r|..]
    ensures AllSpace(s[..|s| - |r|])
    ensures r == [] || !IsSpace(r[0])
    decreases |s|
  {
    if |s| > 0 && IsSpace(s[0]) then TrimStart(s[1..]) else s
  }

  /** `s.trimEnd()`: the prefix left before the trailing whitespace. */
  function TrimEnd(s: string): (r: string)
    ensures |r| <= |s| && r == s[..|r|]
    ensures AllSpace(s[|r|..])
    ensures r == [] || !IsSpace(r[|r| - 1])
    decreases |s|
  {
    if |s| > 0 && IsSpace(s[|s| - 1]) then TrimEnd(s[..|s| - 1]) else s
  }

  /** `s.trim()`: the result has no whitespace at its ends. */
  function Trim(s: string): (r: string)
    ensures NoEdgeSpace(r)
  {
    var t := TrimStart(s);
    var r := TrimEnd(t);
    assert r != [] ==> r[0] == t[0];
    r
  }

  /** JavaScript truthiness of `s.trim()`. */
  predicate IsBlank(s: string) {
    Trim(s) == []
  }

  lemma {:induction false} TrimStartAllSpace(s: string)
    ensures TrimStart(s) == [] <==> AllSpace(s)
    decreases |s|
  {
    if |s| > 0 && IsSpace(s[0]) {
      TrimStartAllSpace(s[1..]);
      assert AllSpace(s) <==> AllSpace(s[1..]) by {
        if AllSpace(s[1..]) {
          forall i | 0 <= i < |s| ensures IsSpace(s[i]) {
            if i > 0 { assert s[i] == s[1..][i - 1]; }
          }
        }
      }
    }
  }

  /** A string trims to "" exactly when every character is whitespace. */
  lemma BlankIffAllSpace(s: string)
    ensures IsBlank(s) <==> AllSpace(s)
  {
    TrimStartAllSpace(s);
    var t := TrimStart(s);
    if TrimEnd(t) == [] {
      // A non-empty `t` starts with a non-space, which `TrimEnd` would keep.
      assert t == t[0..];
      assert t == [];
    }
  }

  lemma {:induction false} TrimStartPadded(pre: string, x: string)
    requires AllSpace(pre)
    requires x == [] || !IsSpace(x[0])
    ensures TrimStart(pre + x) == x
    decreases |pre|
  {
    if pre == [] {
      assert pre + x == x;
    } else {
      assert (pre + x)[1..] == pre[1..] + x;
      TrimStartPadded(pre[1..], x);
    }
  }

  /** Leading whitespace of a text that is not all whitespace ends inside
      it, so whatever follows is kept whole. */
  lemma {:induction false} TrimStartAppend(s: string, t: string)
    requires !AllSpace(s)
    ensures TrimStart(s + t) == TrimStart(s) + t
    decreases |s|
  {
    assert s != [];
    if IsSpace(s[0]) {
      assert (s + t)[1..] == s[1..] + t;
      assert !AllSpace(s[1..]) by {
        var i :| 0 <= i < |s| && !IsSpace(s[i]);
        assert s[1..][i - 1] == s[i];
      }
      TrimStartAppend(s[1..], t);
    }
  }

  lemma {:induction false} TrimEndPadded(x: string, post: string)
    requires AllSpace(post)
    requires x == [] || !IsSpace(x[|x| - 1])
    ensures TrimEnd(x + post) == x
    decreases |post|
  {
    if post == [] {
      assert x + post == x;
    } else {
      var p := post[..|post| - 1];
      assert (x + post)[..|x + post| - 1] == x + p;
      TrimEndPadded(x, p);
    }
  }

  /** Trimming is determined by its result: whitespace around a string with no
      whitespace at its ends is exactly what `trim` removes. */
  lemma TrimPadded(pre: string, x: string, post: string)
    requires AllSpace(pre) && AllSpace(post) && NoEdgeSpace(x)
    ensures Trim(pre + x + post) == x
  {
    if x == [] {
      assert pre + x + post == pre + post;
      assert AllSpace(pre + post) by {
        forall i | 0 <= i < |pre + post| ensures IsSpace((pre + post)[i]) {
          if i >= |pre| { assert (pre + post)[i] == post[i - |pre|]; }
        }
      }
      BlankIffAllSpace(pre + post);
    } else {
      assert pre + x + post == pre + (x + post);
      TrimStartPadded(pre, x + post);
      TrimEndPadded(x, post);
    }
  }

  /** Trimming an already trimmed string changes nothing. */
  lemma TrimIdempotent(s: string)
    ensures Trim(Trim(s)) == Trim(s)
  {
    var t := Trim(s);
    assert [] + t + [] == t;
    TrimPadded([], t, []);
  }

  /** `needle` occurs somewhere in `hay` (JavaScript `hay.includes(needle)`). */
  predicate Contains(hay: string, needle: string) {
    exists i | 0 <= i <= |hay| - |needle| :: OccursAt(hay, needle, i)
  }

  predicate OccursAt(hay: string, needle: string, i: int) {
    0 <= i <= |hay| - |needle| && hay[i..i + |needle|] == needle
  }

  lemma ContainsMiddle(a: string, needle: string, b: string)
    ensures Contains(a + needle + b, needle)
  {
    var h := a + needle + b;
    assert h[|a|..|a| + |needle|] == needle;
    assert OccursAt(h, needle, |a|);
  }

  lemma ContainsSelf(s: string)
    ensures Contains(s, s)
  {
    assert OccursAt(s, s, 0);
  }

  /** An occurrence survives appending text. */
  lemma ContainsLeft(x: string, y: string, needle: string)
    requires Contains(x, needle)
    ensures Contains(x + y, needle)
  {
    var i :| 0 <= i <= |x| - |needle| && OccursAt(x, needle, i);
    assert (x + y)[i..i + |needle|] == x[i..i + |needle|];
    assert OccursAt(x + y, needle, i);
  }

  /** An occurrence survives prepending text. */
  lemma ContainsRight(x: string, y: string, needle: string)
    requires Contains(y, needle)
    ensures Contains(x + y, needle)
  {
    var i :| 0 <= i <= |y| - |needle| && OccursAt(y, needle, i);
    assert (x + y)[|x| + i..|x| + i + |needle|] == y[i..i + |needle|];
    assert OccursAt(x + y, needle, |x| + i);
  }

  /** A string contains every prefix of what it contains. */
  lemma ContainsPrefix(hay: string, a: string, b: string)
    requires Contains(hay, a + b)
    ensures Contains(hay, a)
  {
    var i :| 0 <= i <= |hay| - |a + b| && OccursAt(hay, a + b, i);
    assert hay[i..i + |a|] == (a + b)[..|a|];
    assert OccursAt(hay, a, i);
  }

  /** `hay.startsWith(prefix)`. */
  predicate StartsWith(hay: string, prefix: string) {
    |prefix| <= |hay| && hay[..|prefix|] == prefix
  }

  /** `hay.endsWith(suffix)`. */
  predicate EndsWith(hay: string, suffix: string) {
    |suffix| <= |hay| && hay[|hay| - |suffix|..] == suffix
  }

  /** `xs.join(sep)`: the elements with `sep` between neighbours. */
  function Join(xs: seq<string>, sep: string): string
    decreases |xs|
  {
    if |xs| == 0 then []
    else if |xs| == 1 then xs[0]
    else xs[0] + sep + Join(xs[1..], sep)
  }

  /** Independent definition of `join` that grows at the end. */
  function JoinFromEnd(xs: seq<string>, sep: string): string
    decreases |xs|
  {
    if |xs| == 0 then []
    else if |xs| == 1 then xs[0]
    else JoinFromEnd(xs[..|xs| - 1], sep) + sep + xs[|xs| - 1]
  }

  lemma {:induction false} JoinAppend(xs: seq<string>, x: string, sep: string)
    requires |xs| >= 1
    ensures Join(xs + [x], sep) == Join(xs, sep) + sep + x
    decreases |xs|
  {
    if |xs| == 1 {
      assert (xs + [x])[1..] == [x];
    } else {
      assert (xs + [x])[1..] == xs[1..] + [x];
      JoinAppend(xs[1..], x, sep);
    }
  }

  /** Both readings of `join` agree, so the elements appear in their original
      order whichever end one counts from. */
  lemma {:induction false} JoinAgrees(xs: seq<string>, sep: string)
    ensures Join(xs, sep) == JoinFromEnd(xs, sep)
    decreases |xs|
  {
    if |xs| >= 2 {
      var init := xs[..|xs| - 1];
      JoinAgrees(init, sep);
      assert xs == init + [xs[|xs| - 1]];
      JoinAppend(init, xs[|xs| - 1], sep);
    }
  }

  /** The length of a joined string: every element plus one separator between
      each pair of neighbours. */
  function TotalLength(xs: seq<string>): nat
    decreases |xs|
  {
    if xs == [] then 0 else |xs[0]| + TotalLength(xs[1..])
  }

  lemma {:induction false} JoinLength(xs: seq<string>, sep: string)
    requires |xs| >= 1
    ensures |Join(xs, sep)| == TotalLength(xs) + (|xs| - 1) * |sep|
    decreases |xs|
  {
    if |xs| >= 2 {
      JoinLength(xs[1..], sep);
    }
  }

  /** Index of the first `c` in `s`, or -1 (JavaScript `indexOf`). */
  function IndexOf(s: string, c: char): (r: int)
    ensures -1 <= r < |s|
    ensures r == -1 <==> c !in s
    ensures r >= 0 ==> s[r] == c && c !in s[..r]
    decreases |s|
  {
    if s == [] then -1
    else if s[0] == c then 0
    else
      var k := IndexOf(s[1..], c);
      if k == -1 then -1 else k + 1
  }

  /** `s.split(c)` for a one-character separator. */
  function Split(s: string, c: char): seq<string>
    decreases |s|
  {
    var i := IndexOf(s, c);
    if i == -1 then [s] else [s[..i]] + Split(s[i + 1..], c)
  }

  /** `split` undoes `join` on a list none of whose elements holds the
      separator: the joined string has exactly one part per element. */
  lemma {:induction false} SplitJoin(xs: seq<string>, c: char)
    requires |xs| >= 1
    requires forall k :: 0 <= k < |xs| ==> c !in xs[k]
    ensures Split(Join(xs, [c]), c) == xs
    decreases |xs|
  {
    if |xs| >= 2 {
      var s := Join(xs, [c]);
      var rest := Join(xs[1..], [c]);
      assert s == xs[0] + [c] + rest;
      assert s[..|xs[0]|] == xs[0];
      assert s[|xs[0]|] == c;
      assert IndexOf(s, c) == |xs[0]| by {
        if c in s[..|xs[0]|] { assert false; }
      }
      assert s[|xs[0]| + 1..] == rest;
      SplitJoin(xs[1..], c);
    }
  }

  /** `join` undoes `split` on every string. */
  lemma {:induction false} JoinSplit(s: string, c: char)
    ensures Join(Split(s, c), [c]) == s
    decreases |s|
  {
    var i := IndexOf(s, c);
    if i != -1 {
      var rest := s[i + 1..];
      JoinSplit(rest, c);
      var tail := Split(rest, c);
      SplitNonEmpty(rest, c);
      JoinCons(s[..i], tail, [c]);
      CutAt(s, i);
    }
  }

  lemma SplitNonEmpty(s: string, c: char)
    ensures |Split(s, c)| >= 1
  {
  }

  lemma JoinCons(x: string, tail: seq<string>, sep: string)
    requires |tail| >= 1
    ensures Join([x] + tail, sep) == x + sep + Join(tail, sep)
  {
    assert ([x] + tail)[1..] == tail;
  }

  /** Regrouping a concatenation; stated over abstract strings so that
      proofs about long terms need not rederive it. */
  lemma PrefixAssoc(x: string, y: string, z: string)
    ensures x + (y + z) == (x + y) + z
  {
  }

  /** A string is the part before position `i`, the character there, and the
      part after. */
  lemma CutAt(s: string, i: nat)
    requires i < |s|
    ensures s == s[..i] + [s[i]] + s[i + 1..]
  {
    assert s[..i + 1] == s[..i] + [s[i]];
  }

  /** `s.slice(start, end)` with JavaScript's handling of negative and
      out-of-range positions. */
  function Slice(s: string, start: int, end: int): (r: string)
    ensures |r| <= |s|
    ensures 0 <= start <= end <= |s| ==> r == s[start..end]
  {
    var from := SliceIndex(start, |s|);
    var to := SliceIndex(end, |s|);
    if from < to then s[from..to] else []
  }

  /** A relative slice position: negative counts from the end; clamped to
      `0..len`. */
  function SliceIndex(k: int, len: nat): (r: nat)
    ensures r <= len
    ensures 0 <= k <= len ==> r == k
    ensures k < 0 && len + k >= 0 ==> r == len + k
    ensures k > len ==> r == len
    ensures len + k < 0 ==> r == 0
  {
    if k < 0 then (if len + k < 0 then 0 else len + k)
    else if k > len then len
    else k
  }
}
