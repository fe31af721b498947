/**
 * The few Python string operations the pipeline relies on, stated over `seq<char>`:
 * `str.strip`, `str.split()` with no separator, `str.join` and `str.replace(pat, "")`.
 */
module Text {

  /** Python's `str.isspace` for a single character. */
  predicate IsSpace(c: char)
  {
    c == ' ' || ('\t' <= c <= '\r') || ('\U{1C}' <= c <= '\U{1F}') ||
    c == '\U{85}' || c == '\U{A0}' || c == '\U{1680}' || ('\U{2000}' <= c <= '\U{200A}') ||
    c == '\U{2028}' || c == '\U{2029}' || c == '\U{202F}' || c == '\U{205F}' || c == '\U{3000}'
  }

  /** Neither the first nor the last character of `s` satisfies `drop`. */
  predicate TrimmedBy(s: string, drop: char -> bool)
  {
    |s| > 0 ==> !drop(s[0]) && !drop(s[|s| - 1])
  }

  /** Removes the longest prefix whose characters all satisfy `drop`. */
  function TrimStart(s: string, drop: char -> bool): (r: string)
    ensures |r| <= |s| && r == s[|s| - |r|..]
    ensures |r| > 0 ==> !drop(r[0])
    ensures forall i :: 0 <= i < |s| - |r| ==> drop(s[i])
  {
    if s == [] || !drop(s[0]) then s else TrimStart(s[1..], drop)
  }

  /** Removes the longest suffix whose characters all satisfy `drop`. */
  function TrimEnd(s: string, drop: char -> bool): (r: string)
    ensures |r| <= |s| && r == s[..|r|]
    ensures |r| > 0 ==> !drop(r[|r| - 1])
    ensures forall i :: |r| <= i < |s| ==> drop(s[i])
  {
    if s == [] || !drop(s[|s| - 1]) then s else TrimEnd(s[..|s| - 1], drop)
  }

  /** Python's `s.strip(chars)`: both ends trimmed, the middle untouched. */
  function Trim(s: string, drop: char -> bool): (r: string)
    ensures |r| <= |s| && TrimmedBy(r, drop)
  {
    TrimEnd(TrimStart(s, drop), drop)
  }

  /** Trimming text that is already trimmed changes nothing. */
  lemma TrimKeeps(s: string, drop: char -> bool)
    requires TrimmedBy(s, drop)
    ensures Trim(s, drop) == s
  {
    assert TrimStart(s, drop) == s;
  }

  /** Python's `s.strip()`. */
  function Strip(s: string): (r: string)
  {
    Trim(s, IsSpace)
  }

  /** The test "is the character `c`". */
  function IsChar(c: char): (test: char -> bool)
    ensures forall x :: test(x) <==> x == c
  {
    x => x == c
  }

  /** Python's `s.strip(c)` for one character `c`. */
  function StripChar(s: string, c: char): (r: string)
  {
    Trim(s, IsChar(c))
  }

  /** A word as `str.split()` produces it: non-empty and free of whitespace. */
  predicate IsWord(w: string)
  {
    |w| > 0 && forall i :: 0 <= i < |w| ==> !IsSpace(w[i])
  }

  /** The longest prefix of `t` that holds no whitespace. */
  function WordPrefix(t: string): (w: string)
    ensures |w| <= |t| && w == t[..|w|]
    ensures forall i :: 0 <= i < |w| ==> !IsSpace(w[i])
    ensures |w| < |t| ==> IsSpace(t[|w|])
    ensures |t| > 0 && !IsSpace(t[0]) ==> |w| > 0
  {
    if t == [] || IsSpace(t[0]) then [] else [t[0]] + WordPrefix(t[1..])
  }

  /** Python's `s.split()`: the maximal runs of non-whitespace characters, in order. */
  function Words(s: string): (ws: seq<string>)
    ensures forall i :: 0 <= i < |ws| ==> IsWord(ws[i])
    decreases |s|
  {
    if s == [] then []
    else if IsSpace(s[0]) then Words(s[1..])
    else
      var w := WordPrefix(s);
      [w] + Words(s[|w|..])
  }

  /** Python's `sep.join(parts)`. */
  function Join(sep: string, parts: seq<string>): string
  {
    if |parts| == 0 then ""
    else if |parts| == 1 then parts[0]
    else parts[0] + sep + Join(sep, parts[1..])
  }

  /** `pat` occurs in `s` starting at index `i`. */
  predicate OccursAt(s: string, pat: string, i: int)
  {
    0 <= i && i + |pat| <= |s| && s[i..i + |pat|] == pat
  }

  /** Python's `pat in s`. */
  predicate Contains(s: string, pat: string)
  {
    exists i :: 0 <= i <= |s| && OccursAt(s, pat, i)
  }

  /**
   * Python's `s.replace(pat, "")`: scans left to right and drops every non-overlapping
   * occurrence of `pat`; the text left behind is not scanned again.
   */
  function RemoveAll(s: string, pat: string): string
    requires |pat| > 0
  {
    if |s| < |pat| then s
    else if s[..|pat|] == pat then RemoveAll(s[|pat|..], pat)
    else [s[0]] + RemoveAll(s[1..], pat)
  }

  /** Splitting the single-space join of words gives the words back. */
  lemma {:induction false} WordsOfJoin(ws: seq<string>)
    requires forall i :: 0 <= i < |ws| ==> IsWord(ws[i])
    ensures Words(Join(" ", ws)) == ws
  {
    if |ws| == 0 {
    } else if |ws| == 1 {
      WordsOfWord(ws[0], "");
      assert ws[0] + "" == ws[0];
      assert [ws[0]] == ws;
    } else {
      var rest := Join(" ", ws[1..]);
      WordsOfJoin(ws[1..]);
      assert Join(" ", ws) == ws[0] + (" " + rest);
      WordsOfWord(ws[0], " " + rest);
      WordsSkipSpace(rest);
    }
  }

  /** A word followed by text that is empty or starts with whitespace is the first result of `split()`. */
  lemma {:induction false} WordsOfWord(w: string, tail: string)
    requires IsWord(w)
    requires tail == [] || IsSpace(tail[0])
    ensures Words(w + tail) == [w] + Words(tail)
  {
    var s := w + tail;
    WordPrefixOf(w, tail);
    assert s[|w|..] == tail;
  }

  lemma {:induction false} WordPrefixOf(w: string, tail: string)
    requires forall i :: 0 <= i < |w| ==> !IsSpace(w[i])
    requires tail == [] || IsSpace(tail[0])
    ensures WordPrefix(w + tail) == w
  {
    if w == [] {
    } else {
      assert (w + tail)[1..] == w[1..] + tail;
      WordPrefixOf(w[1..], tail);
    }
  }

  /** A leading space makes no difference to `split()`. */
  lemma WordsSkipSpace(s: string)
    ensures Words(" " + s) == Words(s)
  {
    assert (" " + s)[1..] == s;
  }

  /** Text without an occurrence of `pat` is left alone by `replace(pat, "")`. */
  lemma {:induction false} RemoveAllAbsent(s: string, pat: string)
    requires |pat| > 0
    requires !Contains(s, pat)
    ensures RemoveAll(s, pat) == s
  {
    if |s| < |pat| {
    } else {
      assert !OccursAt(s, pat, 0);
      assert s[..|pat|] != pat;
      forall i | OccursAt(s[1..], pat, i) ensures false {
        assert s[1..][i..i + |pat|] == s[i + 1..i + 1 + |pat|];
        assert OccursAt(s, pat, i + 1);
      }
      RemoveAllAbsent(s[1..], pat);
      assert [s[0]] + s[1..] == s;
    }
  }

  /** `replace(pat, "")` never lengthens the text, and shortens it when `pat` occurs. */
  lemma {:induction false} RemoveAllShrinks(s: string, pat: string)
    requires |pat| > 0
    ensures |RemoveAll(s, pat)| <= |s|
    ensures Contains(s, pat) ==> |RemoveAll(s, pat)| <= |s| - |pat|
  {
    if |s| < |pat| {
    } else if s[..|pat|] == pat {
      RemoveAllShrinks(s[|pat|..], pat);
    } else {
      RemoveAllShrinks(s[1..], pat);
      if Contains(s, pat) {
        var i :| 0 <= i <= |s| && OccursAt(s, pat, i);
        assert i != 0 by { assert s[0..|pat|] == s[..|pat|]; }
        assert 1 <= i && i + |pat| <= |s|;
        assert s[1..][i - 1..i - 1 + |pat|] == s[i..i + |pat|];
        assert OccursAt(s[1..], pat, i - 1);
      }
    }
  }

  /** Each part of a join occurs in the joined text. */
  lemma {:induction false} JoinContainsPart(sep: string, parts: seq<string>, i: nat)
    requires i < |parts|
    ensures Contains(Join(sep, parts), parts[i])
  {
    var j := Join(sep, parts);
    if |parts| == 1 {
      assert OccursAt(j, parts[i], 0);
    } else if i == 0 {
      assert j[..|parts[0]|] == parts[0];
      assert OccursAt(j, parts[i], 0);
    } else {
      JoinContainsPart(sep, parts[1..], i - 1);
      var rest := Join(sep, parts[1..]);
      var k :| 0 <= k <= |rest| && OccursAt(rest, parts[i], k);
      var off := |parts[0] + sep|;
      assert j == (parts[0] + sep) + rest;
      assert j[off + k..off + k + |parts[i]|] == rest[k..k + |parts[i]|];
      assert OccursAt(j, parts[i], off + k);
    }
  }
}
