/** The small text helpers of the terminal renderer (src/render.ts):
    bullet lists, optional labelled lines and one-line truncation.  The grey
    styling (`chalk.gray`) is the parameter `style`. */
module Render {
  import opened Results
  import opened Strings

  const NonePlaceholder := "(none)"
  const DefaultIndent := "  "
  const DefaultMax := 140
  const Ellipsis := "…"

  // ----- wrapBullets ---------------------------------------------------------

  /** One bullet line per item, in order. */
  function BulletLines(items: seq<string>, indent: string): (r: seq<string>)
    ensures |r| == |items|
    ensures forall i :: 0 <= i < |items| ==> r[i] == indent + "- " + items[i]
  {
    seq(|items|, i requires 0 <= i < |items| => indent + "- " + items[i])
  }

  /** `wrapBullets(items, indent)`: the styled placeholder for an empty list,
      otherwise the bullet lines joined by newlines. */
  function WrapBullets(items: seq<string>, indent: string, style: string -> string): (r: string)
    ensures |items| == 0 ==> r == indent + style(NonePlaceholder)
    ensures |items| > 0 ==> r == Join(BulletLines(items, indent), "\n")
  {
    if |items| == 0 then indent + style(NonePlaceholder)
    else Join(BulletLines(items, indent), "\n")
  }

  /** When neither the indent nor any item holds a newline, the rendered list
      splits back into exactly one line per item, line `i` being the bullet
      for item `i`. */
  lemma WrapBulletsLines(items: seq<string>, indent: string, style: string -> string)
    requires |items| > 0
    requires '\n' !in indent
    requires forall i :: 0 <= i < |items| ==> '\n' !in items[i]
    ensures var lines := Split(WrapBullets(items, indent, style), '\n');
      && |lines| == |items|
      && forall i :: 0 <= i < |items| ==> lines[i] == indent + "- " + items[i]
  {
    var lines := BulletLines(items, indent);
    forall k | 0 <= k < |lines| ensures '\n' !in lines[k] {
      assert lines[k] == indent + "- " + items[k];
    }
    SplitJoin(lines, '\n');
  }

  /** `wrapBullets(items)` with the default two-space indent: each item on
      its own line as `  - item`, or the indented placeholder. */
  function WrapBulletsDefault(items: seq<string>, style: string -> string): (r: string)
    ensures |items| == 0 ==> r == "  " + style(NonePlaceholder)
    ensures |items| > 0 && (forall i :: 0 <= i < |items| ==> '\n' !in items[i]) ==>
      var lines := Split(r, '\n');
      |lines| == |items| && forall i :: 0 <= i < |items| ==> lines[i] == "  - " + items[i]
  {
    if |items| > 0 && forall i :: 0 <= i < |items| ==> '\n' !in items[i] then
      WrapBulletsLines(items, DefaultIndent, style);
      WrapBullets(items, DefaultIndent, style)
    else
      WrapBullets(items, DefaultIndent, style)
  }

  // ----- maybeLine -----------------------------------------------------------

  /** `maybeLine(label, value)`: nothing when the value is missing or trims
      to nothing, otherwise the styled label and the trimmed value. */
  function MaybeLine(name: string, value: Option<string>, style: string -> string): (r: string)
    ensures r == [] <==> value.None? || IsBlank(value.value)
    ensures r != [] ==> r == "  " + style(name) + " " + Trim(value.value)
  {
    if value.Some? && !IsBlank(value.value) then "  " + style(name) + " " + Trim(value.value)
    else ""
  }

  /** Trimming the value first changes nothing. */
  lemma MaybeLineTrimmed(name: string, value: string, style: string -> string)
    ensures MaybeLine(name, Some(Trim(value)), style) == MaybeLine(name, Some(value), style)
  {
    var t := Trim(value);
    TrimIdempotent(value);
    assert Trim(t) == t;
    assert IsBlank(t) <==> IsBlank(value);
  }

  // ----- whitespace collapsing ----------------------------------------------

  /** `s.replace(/\s+/g, " ")`: every maximal run of whitespace becomes one
      space. */
  function Collapse(s: string): string
    decreases |s|
  {
    if s == [] then []
    else if IsSpace(s[0]) then " " + Collapse(TrimStart(s[1..]))
    else [s[0]] + Collapse(s[1..])
  }

  /** The characters of `s` that are not whitespace, in order. */
  function Visible(s: string): string
    decreases |s|
  {
    if s == [] then []
    else if IsSpace(s[0]) then Visible(s[1..])
    else [s[0]] + Visible(s[1..])
  }

  lemma {:induction false} VisibleAppend(a: string, b: string)
    ensures Visible(a + b) == Visible(a) + Visible(b)
    decreases |a|
  {
    if a != [] {
      assert (a + b)[1..] == a[1..] + b;
      VisibleAppend(a[1..], b);
    } else {
      assert a + b == b;
    }
  }

  lemma {:induction false} VisibleAllSpace(s: string)
    requires AllSpace(s)
    ensures Visible(s) == []
    decreases |s|
  {
    if s != [] {
      VisibleAllSpace(s[1..]);
    }
  }

  /** Collapsing keeps every non-whitespace character, in order. */
  lemma {:induction false} CollapseKeepsVisible(s: string)
    ensures Visible(Collapse(s)) == Visible(s)
    decreases |s|
  {
    if s != [] {
      if IsSpace(s[0]) {
        var t := s[1..];
        var u := TrimStart(t);
        CollapseKeepsVisible(u);
        VisibleAppend(" ", Collapse(u));
        assert t == t[..|t| - |u|] + u;
        VisibleAppend(t[..|t| - |u|], u);
        VisibleAllSpace(t[..|t| - |u|]);
      } else {
        CollapseKeepsVisible(s[1..]);
        VisibleAppend([s[0]], Collapse(s[1..]));
      }
    }
  }

  /** The collapsed text starts with whitespace exactly when the original
      does, and is empty exactly when the original is. */
  lemma CollapseHead(s: string)
    ensures Collapse(s) == [] <==> s == []
    ensures s != [] ==> (IsSpace(Collapse(s)[0]) <==> IsSpace(s[0]))
  {
  }

  /** Whitespace in the collapsed text is a single ordinary space, never two
      in a row. */
  lemma {:induction false} CollapseSpacing(s: string)
    ensures NoSpaceRun(Collapse(s))
    ensures forall i :: 0 <= i < |Collapse(s)| && IsSpace(Collapse(s)[i]) ==> Collapse(s)[i] == ' '
    decreases |s|
  {
    if s != [] {
      if IsSpace(s[0]) {
        var u := TrimStart(s[1..]);
        CollapseSpacing(u);
        CollapseHead(u);
      } else {
        CollapseSpacing(s[1..]);
      }
    }
  }

  /** Collapsing twice is collapsing once. */
  lemma {:induction false} CollapseIdempotent(s: string)
    ensures Collapse(Collapse(s)) == Collapse(s)
    decreases |s|
  {
    if s != [] {
      if IsSpace(s[0]) {
        var u := TrimStart(s[1..]);
        CollapseIdempotent(u);
        CollapseHead(u);
        var c := Collapse(u);
        assert Collapse(s) == " " + c;
        assert (" " + c)[1..] == c;
        if c != [] {
          assert TrimStart(c) == c;
        }
      } else {
        CollapseIdempotent(s[1..]);
        var c := Collapse(s[1..]);
        assert ([s[0]] + c)[1..] == c;
      }
    }
  }

  /** A text ending in a visible character collapses on its own: its last
      whitespace run cannot merge with what follows. */
  lemma {:induction false} CollapseAppend(a: string, t: string)
    requires a != [] && !IsSpace(a[|a| - 1])
    ensures Collapse(a + t) == Collapse(a) + Collapse(t)
    decreases |a|
  {
    if IsSpace(a[0]) {
      var u := CollapseUnfoldSpace(a, t);
      CollapseAppend(u, t);
      PrefixAssoc(" ", Collapse(u), Collapse(t));
    } else {
      CollapseUnfoldVisible(a, t);
      if |a| > 1 {
        CollapseAppend(a[1..], t);
        PrefixAssoc([a[0]], Collapse(a[1..]), Collapse(t));
      }
    }
  }

  /** One step of collapsing a text that starts with a visible character. */
  lemma CollapseUnfoldVisible(a: string, t: string)
    requires a != [] && !IsSpace(a[0])
    ensures Collapse(a) == [a[0]] + Collapse(a[1..])
    ensures Collapse(a + t) == [a[0]] + Collapse(a[1..] + t)
    ensures |a| == 1 ==> Collapse(a) == [a[0]] && a[1..] + t == t
  {
    assert (a + t)[1..] == a[1..] + t;
  }

  /** One step of collapsing a text that starts with whitespace and ends in a
      visible character: the leading run becomes a space before the trimmed
      remainder `u`, which still ends in that character. */
  lemma CollapseUnfoldSpace(a: string, t: string) returns (u: string)
    requires |a| > 1 && IsSpace(a[0]) && !IsSpace(a[|a| - 1])
    ensures u != [] && |u| < |a| && u[|u| - 1] == a[|a| - 1]
    ensures Collapse(a) == " " + Collapse(u)
    ensures Collapse(a + t) == " " + Collapse(u + t)
  {
    var rest := a[1..];
    assert (a + t)[1..] == rest + t;
    assert !AllSpace(rest) by {
      assert rest[|rest| - 1] == a[|a| - 1];
    }
    TrimStartAppend(rest, t);
    u := TrimStart(rest);
    assert u != [] by {
      TrimStartAllSpace(rest);
    }
  }

  /** Words stay apart: a whitespace run between two visible characters
      becomes exactly one space, whatever it held. */
  lemma CollapseSeparates(a: string, w: string, b: string)
    requires a != [] && !IsSpace(a[|a| - 1])
    requires w != [] && AllSpace(w)
    requires b != [] && !IsSpace(b[0])
    ensures Collapse(a + w + b) == Collapse(a) + " " + Collapse(b)
  {
    assert a + w + b == a + (w + b);
    CollapseAppend(a, w + b);
    CollapseRun(w, b);
  }

  /** A leading whitespace run before a visible character is one space. */
  lemma CollapseRun(w: string, b: string)
    requires w != [] && AllSpace(w)
    requires b != [] && !IsSpace(b[0])
    ensures Collapse(w + b) == " " + Collapse(b)
  {
    var s := w + b;
    assert IsSpace(s[0]);
    assert s[1..] == w[1..] + b;
    TrimStartPadded(w[1..], b);
    assert TrimStart(s[1..]) == b;
  }

  /** A slice of a text without whitespace runs has none either. */
  lemma NoSpaceRunSlice(s: string, i: nat, j: nat)
    requires i <= j <= |s|
    requires NoSpaceRun(s)
    ensures NoSpaceRun(s[i..j])
  {
    var t := s[i..j];
    forall k | 0 <= k < |t| - 1 ensures !(IsSpace(t[k]) && IsSpace(t[k + 1])) {
      assert t[k] == s[i + k] && t[k + 1] == s[i + k + 1];
    }
  }

  lemma ThreeParts(s: string, i: nat, j: nat)
    requires i <= j <= |s|
    ensures s == s[..i] + s[i..j] + s[j..]
  {
  }

  /** Cutting whitespace-only margins off a text without whitespace runs
      leaves none, and removes no visible character. */
  lemma MarginsShape(c: string, i: nat, j: nat)
    requires i <= j <= |c|
    requires NoSpaceRun(c) && AllSpace(c[..i]) && AllSpace(c[j..])
    ensures NoSpaceRun(c[i..j]) && Visible(c[i..j]) == Visible(c)
  {
    var pre, mid, post := c[..i], c[i..j], c[j..];
    NoSpaceRunSlice(c, i, j);
    ThreeParts(c, i, j);
    VisibleAppend(pre + mid, post);
    VisibleAppend(pre, mid);
    VisibleAllSpace(pre);
    VisibleAllSpace(post);
  }

  /** Trimming a text without whitespace runs leaves none, and removes only
      whitespace. */
  lemma TrimKeepsShape(c: string)
    requires NoSpaceRun(c)
    ensures NoSpaceRun(Trim(c)) && Visible(Trim(c)) == Visible(c)
  {
    var t := TrimStart(c);
    MarginsShape(c, |c| - |t|, |c|);
    assert c[|c| - |t|..|c|] == t;
    var r := TrimEnd(t);
    MarginsShape(t, 0, |r|);
    assert t[0..|r|] == r;
  }

  /** `s.replace(/\s+/g, " ").trim()`: one line, no whitespace at its ends
      and never two whitespace characters in a row, holding every visible
      character of `s` in order. */
  function OneLine(s: string): (r: string)
    ensures NoEdgeSpace(r) && NoSpaceRun(r)
    ensures Visible(r) == Visible(s)
  {
    CollapseSpacing(s);
    CollapseKeepsVisible(s);
    TrimKeepsShape(Collapse(s));
    Trim(Collapse(s))
  }

  // ----- trimOneLine ---------------------------------------------------------

  /** `trimOneLine(s, max)`: the one-line form of `s`, cut to `max - 1`
      characters plus an ellipsis when it is longer than `max`. */
  function TrimOneLine(s: string, max: int): (r: string)
    ensures |OneLine(s)| <= max ==> r == OneLine(s)
    ensures |OneLine(s)| > max ==> r == Slice(OneLine(s), 0, max - 1) + Ellipsis
  {
    var one := OneLine(s);
    if |one| > max then Slice(one, 0, max - 1) + Ellipsis else one
  }

  /** `trimOneLine(s)` with the default bound of 140: at most 140
      characters, the whole one-line form when it fits, else its first 139
      and an ellipsis. */
  function TrimOneLineDefault(s: string): (r: string)
    ensures |r| <= 140
    ensures |OneLine(s)| <= 140 ==> r == OneLine(s)
    ensures |OneLine(s)| > 140 ==> r == OneLine(s)[..139] + Ellipsis
  {
    TrimOneLineBound(s, DefaultMax);
    TrimOneLine(s, DefaultMax)
  }

  /** For a positive bound the result never exceeds it; a text that is cut
      keeps its first `max - 1` characters. */
  lemma TrimOneLineBound(s: string, max: int)
    requires max >= 1
    ensures |TrimOneLine(s, max)| <= max
    ensures |OneLine(s)| > max ==>
      TrimOneLine(s, max) == OneLine(s)[..max - 1] + Ellipsis
  {
  }

  /** With a bound of zero, JavaScript's `slice(0, -1)` counts from the end,
      so a cut text keeps all but its last character and comes out as long as
      it was: longer than the bound. */
  lemma TrimOneLineZero(s: string)
    requires OneLine(s) != []
    ensures var one := OneLine(s);
      TrimOneLine(s, 0) == one[..|one| - 1] + Ellipsis && |TrimOneLine(s, 0)| == |one| > 0
  {
  }
}
