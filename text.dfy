/**
 * The JavaScript string operations the controllers rely on:
 * `String.prototype.trim`, `String.prototype.split` with a one-character
 * separator, and the `||` operator applied to a possibly missing string.
 */
module Text {
  import opened Wrappers

  /**
   * The code points `trim` removes: WhiteSpace and LineTerminator of
   * sections 12.2 and 12.3 of ECMA-262 (tab, line tab, form feed, space,
   * no-break space, byte order mark, the Unicode space separators, and
   * line feed, carriage return, line and paragraph separator).
   */
  predicate IsWhitespace(c: char)
  {
    c in WhitespaceChars || '\U{2000}' <= c <= '\U{200A}'
  }

  const WhitespaceChars: set<char> := {
    '\t', '\n', '\U{000B}', '\U{000C}', '\r', ' ', '\U{00A0}', '\U{1680}',
    '\U{2028}', '\U{2029}', '\U{202F}', '\U{205F}', '\U{3000}', '\U{FEFF}'
  }

  /** Every character of `s` is whitespace. */
  predicate IsBlank(s: string)
  {
    forall i :: 0 <= i < |s| ==> IsWhitespace(s[i])
  }

  /** `s` with its leading whitespace removed. */
  function TrimStart(s: string): (r: string)
    ensures |r| <= |s| && r == s[|s| - |r|..]
    ensures r == [] || !IsWhitespace(r[0])
    ensures forall i :: 0 <= i < |s| - |r| ==> IsWhitespace(s[i])
  {
    if s != [] && IsWhitespace(s[0]) then TrimStart(s[1..]) else s
  }

  /** `s` with its trailing whitespace removed. */
  function TrimEnd(s: string): (r: string)
    ensures |r| <= |s| && r == s[..|r|]
    ensures r == [] || !IsWhitespace(r[|r| - 1])
    ensures forall i :: |r| <= i < |s| ==> IsWhitespace(s[i])
  {
    if s != [] && IsWhitespace(s[|s| - 1]) then TrimEnd(s[..|s| - 1]) else s
  }

  /**
   * JavaScript's `s.trim()`: `s` without the whitespace at either end, so
   * that the result neither starts nor ends with whitespace (and is empty
   * exactly when `s` is blank, `TrimEmptyIffBlank`).
   */
  function Trim(s: string): (r: string)
    ensures |r| <= |s|
    ensures r == [] || (!IsWhitespace(r[0]) && !IsWhitespace(r[|r| - 1]))
  {
    TrimEndsNonBlank(s);
    TrimEnd(TrimStart(s))
  }

  lemma TrimEndsNonBlank(s: string)
    ensures var r := TrimEnd(TrimStart(s));
      r == [] || (!IsWhitespace(r[0]) && !IsWhitespace(r[|r| - 1]))
  {
    var t := TrimStart(s);
    var r := TrimEnd(t);
    assert r == [] || r[0] == t[0];
  }

  /** Trimming gives the empty string exactly when `s` is all whitespace. */
  lemma TrimEmptyIffBlank(s: string)
    ensures Trim(s) == [] <==> IsBlank(s)
  {
    var t := TrimStart(s);
    var k := |s| - |t|;
    if TrimEnd(t) == [] {
      forall i | k <= i < |s| ensures IsWhitespace(s[i]) { assert s[i] == t[i - k]; }
    } else {
      assert t[0] == s[k];
    }
  }

  /** Trimming keeps only characters of the original string. */
  lemma TrimKeepsOnlyOwnChars(s: string)
    ensures forall c :: c in Trim(s) ==> c in s
  {
    var t := TrimStart(s);
    assert forall c :: c in t ==> c in s by {
      forall c | c in t ensures c in s {
        var j :| 0 <= j < |t| && t[j] == c;
        assert s[|s| - |t| + j] == c;
      }
    }
    var r := TrimEnd(t);
    forall c | c in r ensures c in t {
      var j :| 0 <= j < |r| && r[j] == c;
      assert t[j] == c;
    }
  }

  /**
   * Trimming removes exactly the whitespace around a string that neither
   * starts nor ends with whitespace.
   */
  lemma {:induction false} TrimPadded(before: string, s: string, after: string)
    requires IsBlank(before) && IsBlank(after)
    requires s == [] || (!IsWhitespace(s[0]) && !IsWhitespace(s[|s| - 1]))
    requires s != [] || before + after == []
    ensures Trim(before + s + after) == s
  {
    assert before + s + after == before + (s + after);
    if s != [] {
      assert (s + after)[0] == s[0];
      TrimStartPadded(before, s + after);
      TrimEndPadded(s, after);
    }
  }

  lemma {:induction false} TrimStartPadded(before: string, s: string)
    requires IsBlank(before)
    requires s == [] || !IsWhitespace(s[0])
    ensures TrimStart(before + s) == s
    decreases |before|
  {
    if before != [] {
      assert (before + s)[0] == before[0];
      assert (before + s)[1..] == before[1..] + s;
      TrimStartPadded(before[1..], s);
    } else {
      assert before + s == s;
    }
  }

  lemma {:induction false} TrimEndPadded(s: string, after: string)
    requires IsBlank(after)
    requires s == [] || !IsWhitespace(s[|s| - 1])
    ensures TrimEnd(s + after) == s
    decreases |after|
  {
    if after != [] {
      var n := |s + after|;
      assert (s + after)[n - 1] == after[|after| - 1];
      assert (s + after)[..n - 1] == s + after[..|after| - 1];
      TrimEndPadded(s, after[..|after| - 1]);
    } else {
      assert s + after == s;
    }
  }

  /** Trimming an already trimmed string changes nothing. */
  lemma TrimIdempotent(s: string)
    ensures Trim(Trim(s)) == Trim(s)
  {
    var r := Trim(s);
    TrimStartPadded([], r);
    assert [] + r == r;
    TrimEndPadded(r, []);
    assert r + [] == r;
  }

  /** The separator-joined concatenation of `parts`, the inverse of `Split`. */
  function Join(parts: seq<string>, sep: char): (s: string)
    requires |parts| >= 1
  {
    if |parts| == 1 then parts[0] else parts[0] + [sep] + Join(parts[1..], sep)
  }

  lemma {:induction false} JoinConsChar(parts: seq<string>, c: char, sep: char)
    requires |parts| >= 1
    ensures Join([[c] + parts[0]] + parts[1..], sep) == [c] + Join(parts, sep)
  {
    var q := [[c] + parts[0]] + parts[1..];
    assert q[0] == [c] + parts[0];
    if |parts| > 1 {
      assert q[1..] == parts[1..];
    }
  }

  /**
   * JavaScript's `s.split(sep)` for a one-character separator: the pieces
   * between separators, in order, so there is always at least one piece
   * (`"".split(",")` is `[""]`), no piece holds the separator, and joining
   * the pieces back gives `s`.
   */
  function Split(s: string, sep: char): (parts: seq<string>)
    ensures |parts| >= 1
    ensures forall i :: 0 <= i < |parts| ==> sep !in parts[i]
    ensures Join(parts, sep) == s
    decreases |s|
  {
    if s == [] then [[]]
    else
      var rest := Split(s[1..], sep);
      if s[0] == sep then
        assert ([[]] + rest)[1..] == rest;
        [[]] + rest
      else
        JoinConsChar(rest, s[0], sep);
        assert s == [s[0]] + s[1..];
        [[s[0]] + rest[0]] + rest[1..]
  }

  lemma {:induction false} SplitNoSeparator(a: string, sep: char)
    requires sep !in a
    ensures Split(a, sep) == [a]
    decreases |a|
  {
    if a != [] {
      SplitNoSeparator(a[1..], sep);
      assert [a[0]] + a[1..] == a;
    }
  }

  lemma {:induction false} SplitAtFirstSeparator(a: string, b: string, sep: char)
    requires sep !in a
    ensures Split(a + [sep] + b, sep) == [a] + Split(b, sep)
    decreases |a|
  {
    var s := a + [sep] + b;
    if a == [] {
      assert s[1..] == b;
    } else {
      assert s[1..] == a[1..] + [sep] + b;
      SplitAtFirstSeparator(a[1..], b, sep);
      assert [a[0]] + a[1..] == a;
    }
  }

  /** Splitting a joined list of separator-free pieces gives the pieces back. */
  lemma {:induction false} SplitJoin(parts: seq<string>, sep: char)
    requires |parts| >= 1
    requires forall i :: 0 <= i < |parts| ==> sep !in parts[i]
    ensures Split(Join(parts, sep), sep) == parts
    decreases |parts|
  {
    if |parts| == 1 {
      SplitNoSeparator(parts[0], sep);
    } else {
      SplitJoin(parts[1..], sep);
      SplitAtFirstSeparator(parts[0], Join(parts[1..], sep), sep);
      assert [parts[0]] + parts[1..] == parts;
    }
  }

  /** The value of `v` is present and not the empty string (JavaScript truthiness). */
  predicate Truthy(v: Option<string>)
  {
    v.Some? && v.value != ""
  }

  /** JavaScript's `v || fallback` on a possibly missing string. */
  function Or(v: Option<string>, fallback: string): string
  {
    if Truthy(v) then v.value else fallback
  }

  /**
   * `v || fallback` is the value when it is present and non-empty, and
   * otherwise the fallback; so it is empty only when both are.
   */
  lemma OrValueOrFallback(v: Option<string>, fallback: string)
    ensures Truthy(v) ==> Or(v, fallback) == v.value
    ensures Or(v, fallback) != fallback ==> Truthy(v) && Or(v, fallback) == v.value
    ensures Or(v, fallback) == "" <==> !Truthy(v) && fallback == ""
  {
  }
}
