/** The JavaScript string operations the pipeline relies on:
    `String.prototype.split` on one separator character,
    `Array.prototype.join`, and `String.prototype.trim`. */
module Text {

  /** The code points `String.prototype.trim` removes: ECMAScript's
      WhiteSpace (tab, vertical tab, form feed, the byte-order mark and every
      Unicode space separator) and LineTerminator (LF, CR, U+2028, U+2029). */
  predicate IsJsWhitespace(c: char) {
    c == '\t' || c == '\n' || c == '\U{000B}' || c == '\U{000C}' || c == '\r' ||
    c == ' ' || c == '\U{00A0}' || c == '\U{1680}' ||
    ('\U{2000}' <= c <= '\U{200A}') ||
    c == '\U{2028}' || c == '\U{2029}' || c == '\U{202F}' || c == '\U{205F}' ||
    c == '\U{3000}' || c == '\U{FEFF}'
  }

  /** A string with no whitespace at either end: what `trim` returns. */
  predicate Trimmed(s: string) {
    s == [] || (!IsJsWhitespace(s[0]) && !IsJsWhitespace(s[|s| - 1]))
  }

  /** `parts.join(sep)`: the parts with `sep` between neighbours. */
  function Join(parts: seq<string>, sep: string): string {
    if |parts| == 0 then ""
    else if |parts| == 1 then parts[0]
    else parts[0] + sep + Join(parts[1..], sep)
  }

  /** `parts.join('')`. */
  function Concat(parts: seq<string>): string {
    Join(parts, "")
  }

  /** `s.split(sep)` for a one-character separator. Like JavaScript, the
      empty string splits into one empty part and a trailing separator
      yields a trailing empty part; joining the parts back gives `s`. */
  function Split(s: string, sep: char): (parts: seq<string>)
    ensures |parts| >= 1
    ensures forall p :: p in parts ==> sep !in p
    ensures Join(parts, [sep]) == s
  {
    if s == [] then [[]]
    else
      var rest := Split(s[1..], sep);
      if s[0] == sep then
        [[]] + rest
      else
        [[s[0]] + rest[0]] + rest[1..]
  }

  /** Splitting undoes joining when no part contains the separator. */
  lemma {:induction false} SplitJoin(parts: seq<string>, sep: char)
    requires |parts| >= 1
    requires forall p :: p in parts ==> sep !in p
    ensures Split(Join(parts, [sep]), sep) == parts
  {
    if |parts| == 1 {
      SplitNoSeparator(parts[0], sep);
    } else {
      var tail := Join(parts[1..], [sep]);
      assert Join(parts, [sep]) == parts[0] + ([sep] + tail);
      SplitJoin(parts[1..], sep);
      SplitAtFirstSeparator(parts[0], tail, sep);
      assert [parts[0]] + parts[1..] == parts;
    }
  }

  /** A string without the separator is a single part. */
  lemma {:induction false} SplitNoSeparator(s: string, sep: char)
    requires sep !in s
    ensures Split(s, sep) == [s]
  {
    if s != [] {
      SplitNoSeparator(s[1..], sep);
      assert [s[0]] + s[1..] == s;
    }
  }

  /** The first separator ends the first part. */
  lemma {:induction false} SplitAtFirstSeparator(a: string, b: string, sep: char)
    requires sep !in a
    ensures Split(a + ([sep] + b), sep) == [a] + Split(b, sep)
  {
    var s := a + ([sep] + b);
    if a == [] {
      assert s == [sep] + b;
      assert s[1..] == b;
    } else {
      assert s[1..] == a[1..] + ([sep] + b);
      SplitAtFirstSeparator(a[1..], b, sep);
      assert [a[0]] + a[1..] == a;
    }
  }

  /** `s` without its leading whitespace. */
  function TrimStart(s: string): (r: string)
    ensures |r| <= |s| && r == s[|s| - |r|..]
    ensures r == [] || !IsJsWhitespace(r[0])
    ensures forall k :: 0 <= k < |s| - |r| ==> IsJsWhitespace(s[k])
  {
    if |s| > 0 && IsJsWhitespace(s[0]) then TrimStart(s[1..]) else s
  }

  /** `s` without its trailing whitespace. */
  function TrimEnd(s: string): (r: string)
    ensures |r| <= |s| && r == s[..|r|]
    ensures r == [] || !IsJsWhitespace(r[|r| - 1])
    ensures forall k :: |r| <= k < |s| ==> IsJsWhitespace(s[k])
  {
    if |s| > 0 && IsJsWhitespace(s[|s| - 1]) then TrimEnd(s[..|s| - 1]) else s
  }

  /** `r` is the stretch of `s` starting at `i`, and everything of `s`
      before and after it is whitespace. */
  predicate StrippedAt(s: string, r: string, i: int) {
    0 <= i <= |s| - |r| && r == s[i..i + |r|] &&
    (forall k :: 0 <= k < i ==> IsJsWhitespace(s[k])) &&
    (forall k :: i + |r| <= k < |s| ==> IsJsWhitespace(s[k]))
  }

  /** `s.trim()`: the stretch of `s` left after cutting whitespace, and
      nothing but whitespace, from either end; it has no whitespace at
      either end itself. */
  function Trim(s: string): (r: string)
    ensures Trimmed(r)
    ensures exists i :: StrippedAt(s, r, i)
    ensures forall c :: c in r ==> c in s
    ensures Trimmed(s) ==> r == s
  {
    var t := TrimStart(s);
    var r := TrimEnd(t);
    StripTwice(s, t, r);
    r
  }

  /** Cutting a whitespace prefix that stops at a non-whitespace character,
      and then a whitespace suffix that stops at one, leaves a stretch with
      only whitespace around it and none at its ends. */
  lemma StripTwice(s: string, t: string, r: string)
    requires |t| <= |s| && t == s[|s| - |t|..]
    requires t == [] || !IsJsWhitespace(t[0])
    requires forall k :: 0 <= k < |s| - |t| ==> IsJsWhitespace(s[k])
    requires |r| <= |t| && r == t[..|r|]
    requires r == [] || !IsJsWhitespace(r[|r| - 1])
    requires forall k :: |r| <= k < |t| ==> IsJsWhitespace(t[k])
    ensures StrippedAt(s, r, |s| - |t|)
    ensures Trimmed(r)
    ensures forall c :: c in r ==> c in s
    ensures Trimmed(s) ==> r == s
  {
    var i := |s| - |t|;
    assert r == s[i..i + |r|];
    forall k | i + |r| <= k < |s| ensures IsJsWhitespace(s[k]) {
      assert s[k] == t[k - i];
    }
    forall c | c in r ensures c in s {
      var m :| 0 <= m < |r| && r[m] == c;
      assert s[i + m] == c;
    }
    if r != [] {
      assert r[0] == t[0];
    }
    if Trimmed(s) && s != [] {
      assert i == 0;
      assert |r| == |s|;
    }
  }

  /** `part` occurs in `whole` starting at index `off`. */
  predicate OccursAt(part: string, whole: string, off: int) {
    0 <= off && off + |part| <= |whole| && whole[off..off + |part|] == part
  }

  /** `whole.includes(part)`. */
  predicate Contains(whole: string, part: string) {
    exists off :: 0 <= off <= |whole| && OccursAt(part, whole, off)
  }

  /** An occurrence survives putting text before and after it. */
  lemma OccursWithin(part: string, whole: string, off: int, before: string, after: string)
    requires OccursAt(part, whole, off)
    ensures OccursAt(part, before + whole + after, |before| + off)
  {
    assert (before + whole + after)[|before| + off..|before| + off + |part|] == whole[off..off + |part|];
  }

  /** Each of five pieces occurs verbatim, at its own offset, in their
      concatenation. */
  lemma PiecesOccur(a: string, b: string, c: string, d: string, e: string)
    ensures OccursAt(a, a + b + c + d + e, 0)
    ensures OccursAt(b, a + b + c + d + e, |a|)
    ensures OccursAt(c, a + b + c + d + e, |a| + |b|)
    ensures OccursAt(d, a + b + c + d + e, |a| + |b| + |c|)
    ensures OccursAt(e, a + b + c + d + e, |a| + |b| + |c| + |d|)
  {
    var s := a + b + c + d + e;
    OccursWithin(a, a, 0, "", b + c + d + e);
    assert "" + a + (b + c + d + e) == s;
    OccursWithin(b, b, 0, a, c + d + e);
    assert a + b + (c + d + e) == s;
    OccursWithin(c, c, 0, a + b, d + e);
    assert a + b + c + (d + e) == s;
    OccursWithin(d, d, 0, a + b + c, e);
    OccursWithin(e, e, 0, a + b + c + d, "");
    assert a + b + c + d + e + "" == s;
  }

  /** Every part occurs verbatim in the joined string. */
  lemma {:induction false} JoinContainsPart(parts: seq<string>, sep: string, i: nat)
    requires i < |parts|
    ensures Contains(Join(parts, sep), parts[i])
  {
    var whole := Join(parts, sep);
    if |parts| == 1 {
      assert whole == "" + parts[0] + "";
      OccursWithin(parts[0], parts[0], 0, "", "");
      assert OccursAt(parts[i], whole, 0);
    } else if i == 0 {
      assert whole == "" + parts[0] + (sep + Join(parts[1..], sep));
      OccursWithin(parts[0], parts[0], 0, "", sep + Join(parts[1..], sep));
      assert OccursAt(parts[i], whole, 0);
    } else {
      var rest := Join(parts[1..], sep);
      assert parts[1..][i - 1] == parts[i];
      JoinContainsPart(parts[1..], sep, i - 1);
      var off :| 0 <= off <= |rest| && OccursAt(parts[i], rest, off);
      var prefix := parts[0] + sep;
      assert whole == prefix + rest + "";
      OccursWithin(parts[i], rest, off, prefix, "");
      assert OccursAt(parts[i], whole, |prefix| + off);
    }
  }
}
