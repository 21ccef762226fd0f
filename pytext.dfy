/**
 * The few pieces of Python's `str` behaviour that the restaurant assistant relies on:
 * `str.lower()`, `str.isspace()` (through `split()` and `strip()`), the `in` substring
 * test, the `\w` and `\d` classes of the `re` module, `int()` of a digit string and
 * `str()` of an integer. Character classes are stated exactly for the Latin-1 range
 * U+0000..U+00FF, which covers the French and English text the assistant handles.
 */
module PyText {

  // ---------------------------------------------------------------- characters

  /** `c.isspace()`: the characters `str.split()` and `str.strip()` treat as whitespace. */
  predicate IsSpace(c: char) {
    ('\t' <= c <= '\r') || ('\U{1C}' <= c <= '\U{1F}') || c == ' ' || c == '\U{85}' || c == '\U{A0}'
    || c == '\U{1680}' || ('\U{2000}' <= c <= '\U{200A}') || c == '\U{2028}' || c == '\U{2029}'
    || c == '\U{202F}' || c == '\U{205F}' || c == '\U{3000}'
  }

  /** `\d` of the `re` module, on ASCII digits. */
  predicate IsDigit(c: char) {
    '0' <= c <= '9'
  }

  /** `\w` of the `re` module on Latin-1: letters, digits, numeric signs and `_`. */
  predicate IsWordChar(c: char) {
    IsDigit(c) || ('a' <= c <= 'z') || ('A' <= c <= 'Z') || c == '_'
    || c == '\U{AA}' || c == '\U{B2}' || c == '\U{B3}' || c == '\U{B5}' || c == '\U{B9}' || c == '\U{BA}'
    || ('\U{BC}' <= c <= '\U{BE}')
    || ('\U{C0}' <= c <= '\U{FF}' && c != '\U{D7}' && c != '\U{F7}')
  }

  /** An upper-case letter that `str.lower()` rewrites (ASCII and Latin-1). */
  predicate IsUpper(c: char) {
    ('A' <= c <= 'Z') || ('\U{C0}' <= c <= '\U{DE}' && c != '\U{D7}')
  }

  /** `c.lower()` on Latin-1: the result is lower case, and exactly the upper-case letters change. */
  function LowerChar(c: char): (d: char)
    ensures !IsUpper(d)
    ensures d == c <==> !IsUpper(c)
    ensures IsSpace(d) <==> IsSpace(c)
    ensures IsDigit(d) <==> IsDigit(c)
    ensures IsWordChar(d) <==> IsWordChar(c)
  {
    if IsUpper(c) then (c as int + 32) as char else c
  }

  /** `s.lower()`: no upper-case letter is left, and a text without one is returned unchanged. */
  function Lower(s: string): (r: string)
    ensures |r| == |s|
    ensures forall i :: 0 <= i < |r| ==> !IsUpper(r[i])
    ensures (forall i :: 0 <= i < |s| ==> !IsUpper(s[i])) ==> r == s
  {
    seq(|s|, i requires 0 <= i < |s| => LowerChar(s[i]))
  }

  lemma LowerIdempotent(s: string)
    ensures Lower(Lower(s)) == Lower(s)
  {
  }

  // ---------------------------------------------------------------- the `in` test

  /** `w` occurs in `text` starting at index `i`. */
  ghost predicate OccursAt(text: string, w: string, i: int) {
    0 <= i && i + |w| <= |text| && text[i..i + |w|] == w
  }

  /** A character of `w` that `text` lacks shows that `w` occurs nowhere in `text`. */
  lemma MissingCharacter(text: string, w: string, c: char)
    requires c in w && c !in text
    ensures forall i :: !OccursAt(text, w, i)
  {
    var k :| 0 <= k < |w| && w[k] == c;
    forall i | 0 <= i && i + |w| <= |text| ensures !OccursAt(text, w, i) {
      assert text[i..i + |w|][k] == text[i + k] != c;
    }
  }

  /** `w in text` for two strings: a left-to-right scan of the start positions. */
  predicate Contains(text: string, w: string)
    decreases |text|
  {
    if |w| > |text| then false
    else if text[..|w|] == w then true
    else Contains(text[1..], w)
  }

  /** The scan finds `w` exactly when `w` occurs somewhere in `text`. */
  lemma {:induction false} ContainsIff(text: string, w: string)
    ensures Contains(text, w) <==> exists i :: OccursAt(text, w, i)
    decreases |text|
  {
    if |w| > |text| {
    } else if text[..|w|] == w {
      assert OccursAt(text, w, 0);
    } else {
      ContainsIff(text[1..], w);
      if Contains(text[1..], w) {
        var i :| OccursAt(text[1..], w, i);
        assert text[1..][i..i + |w|] == text[i + 1..i + 1 + |w|];
        assert OccursAt(text, w, i + 1);
      } else {
        forall i | OccursAt(text, w, i) ensures false {
          if i != 0 {
            assert text[1..][i - 1..i - 1 + |w|] == text[i..i + |w|];
            assert OccursAt(text[1..], w, i - 1);
          }
        }
      }
    }
  }

  // ---------------------------------------------------------------- split()

  /** What `str.split()` can produce: a non-empty run of non-whitespace characters. */
  ghost predicate IsToken(w: string) {
    |w| > 0 && forall i :: 0 <= i < |w| ==> !IsSpace(w[i])
  }

  /** Length of the leading run of non-whitespace characters of `s`. */
  function RunLength(s: string): (n: nat)
    ensures n <= |s|
    ensures forall i :: 0 <= i < n ==> !IsSpace(s[i])
    ensures n < |s| ==> IsSpace(s[n])
  {
    if s == [] || IsSpace(s[0]) then 0 else 1 + RunLength(s[1..])
  }

  /** `s.split()`: the maximal runs of non-whitespace characters, left to right. */
  function Split(s: string): (ws: seq<string>)
    ensures forall k :: 0 <= k < |ws| ==> IsToken(ws[k])
    decreases |s|
  {
    if s == [] then []
    else if IsSpace(s[0]) then Split(s[1..])
    else
      var n := RunLength(s);
      [s[..n]] + Split(s[n..])
  }

  /** `w` occurs in `s` at index `i`, with whitespace or an end of `s` on both sides. */
  ghost predicate StandsAt(s: string, w: string, i: int) {
    OccursAt(s, w, i) && (i == 0 || IsSpace(s[i - 1])) && (i + |w| == |s| || IsSpace(s[i + |w|]))
  }

  /** `w` stands in `s` between whitespace (or the ends of `s`). */
  ghost predicate StandsAlone(s: string, w: string) {
    exists i :: StandsAt(s, w, i)
  }

  /** A token is among `s.split()` exactly when it stands alone in `s`. */
  lemma {:induction false} SplitMembership(s: string, w: string)
    requires IsToken(w)
    ensures w in Split(s) <==> StandsAlone(s, w)
    decreases |s|
  {
    if s == [] {
    } else if IsSpace(s[0]) {
      SplitMembership(s[1..], w);
      StandsAloneAfterSpace(s, w);
    } else {
      var n := RunLength(s);
      assert Split(s) == [s[..n]] + Split(s[n..]);
      SplitMembership(s[n..], w);
      StandsAloneAfterRun(s, w);
    }
  }

  lemma StandsAloneAfterSpace(s: string, w: string)
    requires IsToken(w) && s != [] && IsSpace(s[0])
    ensures StandsAlone(s, w) <==> StandsAlone(s[1..], w)
  {
    if StandsAlone(s, w) {
      var i :| StandsAt(s, w, i);
      if i != 0 {
        StandsShift(s, w, 1, i - 1);
      }
    }
    if StandsAlone(s[1..], w) {
      var i :| StandsAt(s[1..], w, i);
      StandsShift(s, w, 1, i);
    }
  }

  /** Standing at `j` in a suffix `s[n..]` is standing at `n + j` in `s`, when the left edges agree. */
  lemma StandsShift(s: string, w: string, n: nat, j: nat)
    requires n <= |s| && (0 < j || (0 < n && IsSpace(s[n - 1])))
    ensures StandsAt(s[n..], w, j) <==> StandsAt(s, w, n + j)
  {
    var t := s[n..];
    if j + |w| <= |t| {
      assert t[j..j + |w|] == s[n + j..n + j + |w|];
      assert OccursAt(t, w, j) <==> OccursAt(s, w, n + j);
      assert j == 0 || t[j - 1] == s[n + j - 1];
      assert j + |w| == |t| || t[j + |w|] == s[n + j + |w|];
    }
  }

  lemma StandsAloneAfterRun(s: string, w: string)
    requires IsToken(w) && s != [] && !IsSpace(s[0])
    ensures StandsAlone(s, w) <==> (w == s[..RunLength(s)] || StandsAlone(s[RunLength(s)..], w))
  {
    var n := RunLength(s);
    if StandsAlone(s, w) {
      var i :| StandsAt(s, w, i);
      StandsInRun(s, w, i);
    }
    if StandsAlone(s[n..], w) {
      var j :| StandsAt(s[n..], w, j);
      StandsInRest(s, w, j);
    }
    if w == s[..n] {
      assert StandsAt(s, w, 0);
    }
  }

  lemma StandsInRun(s: string, w: string, i: int)
    requires IsToken(w) && s != [] && !IsSpace(s[0]) && StandsAt(s, w, i)
    ensures w == s[..RunLength(s)] || StandsAt(s[RunLength(s)..], w, i - RunLength(s))
  {
    var n := RunLength(s);
    assert i == 0 || i > n;
    if i == 0 {
      assert forall k :: 0 <= k < |w| ==> s[k] == w[k];
      assert |w| == n;
      assert s[..n] == s[0..0 + |w|];
    } else {
      StandsShift(s, w, n, i - n);
    }
  }

  lemma StandsInRest(s: string, w: string, j: int)
    requires IsToken(w) && s != [] && !IsSpace(s[0]) && StandsAt(s[RunLength(s)..], w, j)
    ensures StandsAt(s, w, RunLength(s) + j)
  {
    var n := RunLength(s);
    if j != 0 {
      StandsShift(s, w, n, j);
    }
  }

  /** `" ".join(ws)`. */
  function Join(ws: seq<string>): string {
    if |ws| == 0 then "" else if |ws| == 1 then ws[0] else ws[0] + " " + Join(ws[1..])
  }

  /** `" ".join(ws).split() == ws` for tokens. */
  lemma {:induction false} SplitJoin(ws: seq<string>)
    requires forall k :: 0 <= k < |ws| ==> IsToken(ws[k])
    ensures Split(Join(ws)) == ws
  {
    if |ws| == 0 {
    } else {
      var w := ws[0];
      var rest := if |ws| == 1 then "" else " " + Join(ws[1..]);
      var s := w + rest;
      assert Join(ws) == s;
      assert s[0] == w[0];
      RunLengthOfToken(w, rest);
      assert s[..|w|] == w && s[|w|..] == rest;
      assert Split(s) == [w] + Split(rest);
      if |ws| == 1 {
      } else {
        assert rest[1..] == Join(ws[1..]);
        SplitJoin(ws[1..]);
        assert Split(rest) == Split(rest[1..]);
        assert ws == [w] + ws[1..];
      }
    }
  }

  lemma RunLengthOfToken(w: string, rest: string)
    requires IsToken(w)
    requires rest == [] || IsSpace(rest[0])
    ensures RunLength(w + rest) == |w|
  {
    var s := w + rest;
    var n := RunLength(s);
    assert forall i :: 0 <= i < |w| ==> s[i] == w[i];
    assert |w| < |s| ==> s[|w|] == rest[0];
  }

  // ---------------------------------------------------------------- strip()

  /** Number of leading whitespace characters of `s`. */
  function LeadingSpace(s: string): (n: nat)
    ensures n <= |s|
    ensures forall i :: 0 <= i < n ==> IsSpace(s[i])
    ensures n < |s| ==> !IsSpace(s[n])
  {
    if s != [] && IsSpace(s[0]) then 1 + LeadingSpace(s[1..]) else 0
  }

  /** Number of trailing whitespace characters of `s`. */
  function TrailingSpace(s: string): (n: nat)
    ensures n <= |s|
    ensures forall i :: |s| - n <= i < |s| ==> IsSpace(s[i])
    ensures n < |s| ==> !IsSpace(s[|s| - 1 - n])
  {
    if s != [] && IsSpace(s[|s| - 1]) then 1 + TrailingSpace(s[..|s| - 1]) else 0
  }

  /** `r` is `s` with only whitespace cut off before index `i` and after `r`. */
  ghost predicate TrimmedAt(s: string, r: string, i: int) {
    0 <= i <= |s| - |r| && r == s[i..i + |r|]
    && (forall k :: 0 <= k < i ==> IsSpace(s[k]))
    && (forall k :: i + |r| <= k < |s| ==> IsSpace(s[k]))
  }

  /** `s.strip()`: `s` without its leading and trailing whitespace. */
  function Strip(s: string): (r: string)
    ensures r == [] || (!IsSpace(r[0]) && !IsSpace(r[|r| - 1]))
    ensures exists i :: TrimmedAt(s, r, i)
  {
    var a := LeadingSpace(s);
    if a == |s| then
      assert TrimmedAt(s, [], 0);
      []
    else
      var b := TrailingSpace(s[a..]);
      assert b < |s| - a;
      var r := s[a..|s| - b];
      assert TrimmedAt(s, r, a);
      r
  }

  // ---------------------------------------------------------------- int() and str()

  function DigitValue(c: char): nat
    requires IsDigit(c)
  {
    c as int - '0' as int
  }

  function DigitChar(d: nat): (c: char)
    requires d < 10
    ensures IsDigit(c) && DigitValue(c) == d
  {
    ('0' as int + d) as char
  }

  /** `int(s)` for a string of decimal digits (leading zeros allowed). */
  function DigitsValue(s: string): nat
    requires forall i :: 0 <= i < |s| ==> IsDigit(s[i])
  {
    if s == [] then 0 else DigitsValue(s[..|s| - 1]) * 10 + DigitValue(s[|s| - 1])
  }

  /** `str(n)` for a natural number: its decimal digits, no leading zero. */
  function ShowNat(n: nat): (s: string)
    ensures |s| > 0 && forall i :: 0 <= i < |s| ==> IsDigit(s[i])
    ensures |s| > 1 ==> s[0] != '0'
  {
    if n < 10 then [DigitChar(n)] else ShowNat(n / 10) + [DigitChar(n % 10)]
  }

  /** `str(n)` for any integer, as an f-string writes it. */
  function Show(n: int): string {
    if n < 0 then "-" + ShowNat(-n) else ShowNat(n)
  }

  /** `int(str(n)) == n`. */
  lemma {:induction false} ShowNatValue(n: nat)
    ensures DigitsValue(ShowNat(n)) == n
  {
    if n >= 10 {
      ShowNatValue(n / 10);
      var s := ShowNat(n);
      assert s[..|s| - 1] == ShowNat(n / 10);
    }
  }
}
