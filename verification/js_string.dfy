/** The two pieces of ECMAScript string behaviour the controller relies on:
    `String.prototype.trim` and `String.prototype.split` with a
    one-character separator, plus reading an array slot that may be past
    the end (`undefined`). */
module JsString {
  import opened Wrappers

  /** The code points `trim` strips: the WhiteSpace set of ECMAScript
      (tab, vertical tab, form feed, no-break space, byte-order mark and
      every space separator of category Zs) and its LineTerminator set
      (line feed, carriage return, line and paragraph separator). */
  predicate IsWhitespace(c: char) {
    || c == '\t' || c == '\n' || c == '\U{000B}' || c == '\U{000C}' || c == '\r'
    || c == ' ' || c == '\U{00A0}' || c == '\U{1680}'
    || ('\U{2000}' <= c <= '\U{200A}')
    || c == '\U{2028}' || c == '\U{2029}' || c == '\U{202F}' || c == '\U{205F}'
    || c == '\U{3000}' || c == '\U{FEFF}'
  }

  predicate AllWhitespace(s: string) {
    forall k :: 0 <= k < |s| ==> IsWhitespace(s[k])
  }

  /** The first position at or after `i` that holds a visible character,
      or `|s|` when there is none. */
  function FirstVisible(s: string, i: nat): (r: nat)
    requires i <= |s|
    ensures i <= r <= |s|
    ensures forall k :: i <= k < r ==> IsWhitespace(s[k])
    ensures r < |s| ==> !IsWhitespace(s[r])
    decreases |s| - i
  {
    if i < |s| && IsWhitespace(s[i]) then FirstVisible(s, i + 1) else i
  }

  /** The end of the last visible character in `s[lo..j]`, or `lo` when
      there is none. */
  function VisibleEnd(s: string, lo: nat, j: nat): (r: nat)
    requires lo <= j <= |s|
    ensures lo <= r <= j
    ensures forall k :: r <= k < j ==> IsWhitespace(s[k])
    ensures r > lo ==> !IsWhitespace(s[r - 1])
    decreases j - lo
  {
    if lo < j && IsWhitespace(s[j - 1]) then VisibleEnd(s, lo, j - 1) else j
  }

  /** `String.prototype.trim`: blank exactly when `s` holds nothing but
      white space; otherwise it starts and ends on a visible character. */
  function Trim(s: string): (r: string)
    ensures r == [] <==> AllWhitespace(s)
    ensures r != [] ==> !IsWhitespace(r[0]) && !IsWhitespace(r[|r| - 1])
  {
    var i := FirstVisible(s, 0);
    var j := VisibleEnd(s, i, |s|);
    assert i < j ==> s[i..j][0] == s[i] && !IsWhitespace(s[i]);
    assert i < j ==> s[i..j][j - i - 1] == s[j - 1];
    s[i..j]
  }

  /** `s[i..j]` is a trimming of `s`: everything outside it is white
      space, and it is empty or starts and ends on a visible character. */
  predicate IsTrimmingOf(s: string, i: int, j: int) {
    && 0 <= i <= j <= |s|
    && (forall k :: 0 <= k < i ==> IsWhitespace(s[k]))
    && (forall k :: j <= k < |s| ==> IsWhitespace(s[k]))
    && (i < j ==> !IsWhitespace(s[i]) && !IsWhitespace(s[j - 1]))
  }

  /** Starting the forward scan after a stretch of white space finds the
      same position. */
  lemma {:induction false} FirstVisibleSkips(s: string, i: nat, m: nat)
    requires i <= m <= |s|
    requires forall k :: i <= k < m ==> IsWhitespace(s[k])
    ensures FirstVisible(s, i) == FirstVisible(s, m)
    decreases m - i
  {
    if i < m {
      FirstVisibleSkips(s, i + 1, m);
    }
  }

  /** Starting the backward scan before a stretch of white space finds the
      same end. */
  lemma {:induction false} VisibleEndSkips(s: string, lo: nat, j: nat, m: nat)
    requires lo <= m <= j <= |s|
    requires forall k :: m <= k < j ==> IsWhitespace(s[k])
    ensures VisibleEnd(s, lo, j) == VisibleEnd(s, lo, m)
    decreases j - m
  {
    if m < j {
      VisibleEndSkips(s, lo, j - 1, m);
    }
  }

  /** There is only one trimming, and `Trim` computes it. */
  lemma TrimIsTheTrimming(s: string, i: int, j: int)
    requires IsTrimmingOf(s, i, j)
    ensures Trim(s) == s[i..j]
  {
    FirstVisibleSkips(s, 0, i);
    if i < j {
      assert FirstVisible(s, i) == i;
      VisibleEndSkips(s, i, |s|, j);
      assert VisibleEnd(s, i, j) == j;
    } else {
      FirstVisibleSkips(s, i, |s|);
      assert FirstVisible(s, 0) == |s|;
    }
  }

  /** The bounds of the trimmed part of `s`, found by scanning inwards from
      both ends. */
  method TrimBounds(s: string) returns (i: nat, j: nat)
    ensures IsTrimmingOf(s, i, j)
    ensures s[i..j] == Trim(s)
  {
    i := 0;
    while i < |s| && IsWhitespace(s[i])
      invariant i <= |s|
      invariant forall k :: 0 <= k < i ==> IsWhitespace(s[k])
    {
      i := i + 1;
    }
    j := |s|;
    while i < j && IsWhitespace(s[j - 1])
      invariant i <= j <= |s|
      invariant forall k :: j <= k < |s| ==> IsWhitespace(s[k])
    {
      j := j - 1;
    }
    TrimIsTheTrimming(s, i, j);
  }

  /** Trimming twice changes nothing more. */
  lemma TrimIdempotent(s: string)
    ensures Trim(Trim(s)) == Trim(s)
  {
    var r := Trim(s);
    assert IsTrimmingOf(r, 0, |r|);
    TrimIsTheTrimming(r, 0, |r|);
    assert r[0..|r|] == r;
  }

  /** Joins `parts` with `sep` in between (`Array.prototype.join`). */
  function Join(parts: seq<string>, sep: char): string
    requires |parts| >= 1
  {
    if |parts| == 1 then parts[0] else parts[0] + [sep] + Join(parts[1..], sep)
  }

  /** `String.prototype.split` with a one-character separator: the pieces
      of `s` between the occurrences of `sep`, none of which holds `sep`,
      and which join back to `s`. */
  function Split(s: string, sep: char): (parts: seq<string>)
    ensures |parts| >= 1
    ensures Join(parts, sep) == s
    ensures forall k :: 0 <= k < |parts| ==> sep !in parts[k]
    decreases |s|
  {
    if s == [] then [""]
    else
      var rest := Split(s[1..], sep);
      if s[0] == sep then
        [""] + rest
      else
        var parts := [[s[0]] + rest[0]] + rest[1..];
        assert parts[1..] == rest[1..];
        assert s == [s[0]] + s[1..];
        parts
  }

  /** `parts[i]`, or `undefined` past the end. */
  function Piece(parts: seq<string>, i: nat): (r: Option<string>)
    ensures r.Some? <==> i < |parts|
    ensures r.Some? ==> r.value == parts[i]
  {
    if i < |parts| then Some(parts[i]) else None
  }

  /** A string free of the separator splits into itself alone. */
  lemma {:induction false} SplitWithoutSeparator(s: string, sep: char)
    requires sep !in s
    ensures Split(s, sep) == [s]
    decreases |s|
  {
    if s != [] {
      assert sep !in s[1..];
      SplitWithoutSeparator(s[1..], sep);
    }
  }

  /** The first separator ends the first piece. */
  lemma {:induction false} SplitAtFirstSeparator(a: string, sep: char, b: string)
    requires sep !in a
    ensures Split(a + [sep] + b, sep) == [a] + Split(b, sep)
    decreases |a|
  {
    var s := a + [sep] + b;
    if a == [] {
      assert s[1..] == b;
    } else {
      assert s[1..] == a[1..] + [sep] + b;
      assert sep !in a[1..];
      SplitAtFirstSeparator(a[1..], sep, b);
      assert [a[0]] + a[1..] == a;
    }
  }

  /** `split` cuts somewhere exactly when the separator occurs. */
  lemma {:induction false} SplitCutsIffSeparator(s: string, sep: char)
    ensures |Split(s, sep)| > 1 <==> sep in s
    decreases |s|
  {
    if s != [] {
      SplitCutsIffSeparator(s[1..], sep);
      assert s == [s[0]] + s[1..];
    }
  }

  /** A character absent from `s` is absent from every piece of it. */
  lemma {:induction false} SplitPiecesAvoid(s: string, sep: char, c: char)
    requires c !in s
    ensures forall k :: 0 <= k < |Split(s, sep)| ==> c !in Split(s, sep)[k]
    decreases |s|
  {
    if s != [] {
      assert c !in s[1..];
      SplitPiecesAvoid(s[1..], sep, c);
    }
  }

  /** `Split` is the only way to cut `s` into separator-free pieces that
      join back to `s`. */
  lemma {:induction false} SplitUnique(parts: seq<string>, sep: char)
    requires |parts| >= 1
    requires forall k :: 0 <= k < |parts| ==> sep !in parts[k]
    ensures Split(Join(parts, sep), sep) == parts
    decreases |parts|
  {
    if |parts| == 1 {
      SplitWithoutSeparator(parts[0], sep);
    } else {
      var tail := parts[1..];
      assert forall k :: 0 <= k < |tail| ==> sep !in tail[k] by {
        forall k | 0 <= k < |tail| ensures sep !in tail[k] {
          assert tail[k] == parts[k + 1];
        }
      }
      SplitUnique(tail, sep);
      SplitAtFirstSeparator(parts[0], sep, Join(tail, sep));
      assert [parts[0]] + tail == parts;
    }
  }
}
