/**
 * The practice-text formatter of scripts/helpers.js.
 *
 * Strings are sequences of `char`; one `char` stands for one JavaScript
 * string element.
 */
module Helpers {

  /** The mode in which the formatter repeats one letter. */
  const RepeatLetterMode: string := "repeat-letter"

  /** How many copies of the letter a repeat-letter sheet holds. */
  const Copies: nat := 50

  /** The characters `String.prototype.trim` removes (WhiteSpace and LineTerminator). */
  const Whitespace: set<char> := {
    '\t', '\n', '\U{B}', '\U{C}', '\r', ' ', '\U{A0}', '\U{1680}',
    '\U{2000}', '\U{2001}', '\U{2002}', '\U{2003}', '\U{2004}', '\U{2005}',
    '\U{2006}', '\U{2007}', '\U{2008}', '\U{2009}', '\U{200A}',
    '\U{2028}', '\U{2029}', '\U{202F}', '\U{205F}', '\U{3000}', '\U{FEFF}'
  }

  predicate IsWhitespace(c: char) {
    c in Whitespace
  }

  /** How many whitespace characters `s` starts with. */
  function LeadingWhitespace(s: string): (n: nat)
    ensures n <= |s|
    ensures forall j :: 0 <= j < n ==> IsWhitespace(s[j])
    ensures n == |s| || !IsWhitespace(s[n])
  {
    if |s| > 0 && IsWhitespace(s[0]) then 1 + LeadingWhitespace(s[1..]) else 0
  }

  /** How many whitespace characters `s` ends with. */
  function TrailingWhitespace(s: string): (n: nat)
    ensures n <= |s|
    ensures forall j :: |s| - n <= j < |s| ==> IsWhitespace(s[j])
    ensures n == |s| || !IsWhitespace(s[|s| - n - 1])
  {
    if |s| > 0 && IsWhitespace(s[|s| - 1]) then 1 + TrailingWhitespace(s[..|s| - 1]) else 0
  }

  /**
   * `s.trim()`: the slice of `s` after its leading whitespace whose
   * remainder is all whitespace; it neither starts nor ends with
   * whitespace.
   */
  function Trim(s: string): (r: string)
    ensures var i := LeadingWhitespace(s);
      && i + |r| <= |s| && r == s[i..i + |r|]
      && forall j :: 0 <= j < |s| && !(i <= j < i + |r|) ==> IsWhitespace(s[j])
    ensures r == [] || (!IsWhitespace(r[0]) && !IsWhitespace(r[|r| - 1]))
  {
    var i := LeadingWhitespace(s);
    if i == |s| then [] else
      var k := |s| - TrailingWhitespace(s);
      assert i < k;
      s[i..k]
  }

  /**
   * `s.trim()` is empty exactly when `s` is all whitespace, and otherwise
   * begins with the first non-whitespace character of `s`.
   */
  lemma TrimFirst(s: string)
    ensures Trim(s) == [] <==> forall k :: 0 <= k < |s| ==> IsWhitespace(s[k])
    ensures forall k :: 0 <= k < |s| && !IsWhitespace(s[k]) && (forall j :: 0 <= j < k ==> IsWhitespace(s[j])) ==>
      Trim(s) != [] && Trim(s)[0] == s[k]
  {
    var r := Trim(s);
    var i := LeadingWhitespace(s);
    assert i <= |s| && (forall j :: 0 <= j < i ==> IsWhitespace(s[j])) && (i == |s| || !IsWhitespace(s[i]));
    assert i + |r| <= |s| && r == s[i..i + |r|];
    assert forall j :: 0 <= j < |s| && !(i <= j < i + |r|) ==> IsWhitespace(s[j]);
    SliceFacts(s, i, r);
  }

  /**
   * A slice that starts at the first non-whitespace character and has only
   * whitespace outside it is empty exactly when `s` is all whitespace, and
   * otherwise starts with that character.
   */
  lemma SliceFacts(s: string, i: nat, r: string)
    requires i <= |s| && (forall j :: 0 <= j < i ==> IsWhitespace(s[j])) && (i == |s| || !IsWhitespace(s[i]))
    requires i + |r| <= |s| && r == s[i..i + |r|]
    requires forall j :: 0 <= j < |s| && !(i <= j < i + |r|) ==> IsWhitespace(s[j])
    ensures r == [] <==> forall k :: 0 <= k < |s| ==> IsWhitespace(s[k])
    ensures forall k :: 0 <= k < |s| && !IsWhitespace(s[k]) && (forall j :: 0 <= j < k ==> IsWhitespace(s[j])) ==>
      r != [] && r[0] == s[k]
  {
    if r == [] {
      assert forall k :: 0 <= k < |s| ==> IsWhitespace(s[k]);
    } else {
      assert r[0] == s[i];
    }
    forall k | 0 <= k < |s| && !IsWhitespace(s[k]) && (forall j :: 0 <= j < k ==> IsWhitespace(s[j]))
      ensures r != [] && r[0] == s[k]
    {
      assert k == i;
    }
  }

  /** A string without leading or trailing whitespace is its own trim. */
  lemma TrimmedIsFixed(s: string)
    requires s == [] || (!IsWhitespace(s[0]) && !IsWhitespace(s[|s| - 1]))
    ensures Trim(s) == s
  {
  }

  /** `parts.join(sep)`: empty for no parts; otherwise it starts with the first part. */
  function Join(parts: seq<string>, sep: string): (r: string)
    ensures parts == [] ==> r == ""
    ensures parts != [] ==> parts[0] <= r
  {
    if |parts| == 0 then ""
    else if |parts| == 1 then parts[0]
    else parts[0] + sep + Join(parts[1..], sep)
  }

  /** n one-character strings `c` joined by single spaces: `c` at every even index, a space at every odd one. */
  lemma {:induction false} JoinedCopiesAt(c: char, n: nat)
    requires n >= 1
    ensures var r := Join(seq(n, _ => [c]), " ");
      |r| == 2 * n - 1 && forall k :: 0 <= k < |r| ==> r[k] == if k % 2 == 0 then c else ' '
  {
    if n > 1 {
      JoinedCopiesAt(c, n - 1);
      assert seq(n, _ => [c])[1..] == seq(n - 1, _ => [c]);
      assert Join(seq(n, _ => [c]), " ") == [c] + " " + Join(seq(n - 1, _ => [c]), " ");
    }
  }

  /** `Array(n).fill(c).join(' ')`: empty for no copies, else `c` at every even index and a space at every odd one. */
  function Repeated(c: char, n: nat): (r: string)
    ensures n == 0 ==> r == ""
    ensures n >= 1 ==> |r| == 2 * n - 1 && forall k :: 0 <= k < |r| ==> r[k] == if k % 2 == 0 then c else ' '
  {
    if n >= 1 then JoinedCopiesAt(c, n); Join(seq(n, _ => [c]), " ") else ""
  }

  /** `text.trim().charAt(0) || 'A'`: the letter a repeat-letter sheet repeats. */
  function Letter(text: string): (c: char)
    ensures !IsWhitespace(c)
    ensures (forall i :: 0 <= i < |text| ==> IsWhitespace(text[i])) ==> c == 'A'
    ensures forall i :: 0 <= i < |text| && !IsWhitespace(text[i]) && (forall j :: 0 <= j < i ==> IsWhitespace(text[j])) ==>
      c == text[i]
  {
    TrimFirst(text);
    var t := Trim(text);
    if |t| > 0 then t[0] else 'A'
  }

  /**
   * `formatPracticeText(text, mode)`: in repeat-letter mode, 50 copies of
   * the letter separated by single spaces; in any other mode, `text` itself.
   */
  function FormatPracticeText(text: string, mode: string): (r: string)
    ensures mode != RepeatLetterMode ==> r == text
    ensures mode == RepeatLetterMode ==>
      |r| == 2 * Copies - 1 &&
      forall k :: 0 <= k < |r| ==> r[k] == if k % 2 == 0 then Letter(text) else ' '
  {
    if mode == RepeatLetterMode then
      Repeated(Letter(text), Copies)
    else
      text
  }

  /** A repeat-letter sheet has no leading or trailing whitespace. */
  lemma FormattedIsTrimmed(text: string)
    ensures var r := FormatPracticeText(text, RepeatLetterMode);
      |r| == 99 && !IsWhitespace(r[0]) && !IsWhitespace(r[|r| - 1]) && Trim(r) == r
  {
    var r := FormatPracticeText(text, RepeatLetterMode);
    var c := Letter(text);
    assert |r| == 99;
    assert r[0] == c by { assert 0 % 2 == 0; }
    assert r[98] == c by { assert 98 % 2 == 0; }
    TrimmedIsFixed(r);
  }

  /** Formatting a repeat-letter sheet again gives the same sheet. */
  lemma FormatIdempotent(text: string)
    ensures var r := FormatPracticeText(text, RepeatLetterMode);
      FormatPracticeText(r, RepeatLetterMode) == r
  {
    var r := FormatPracticeText(text, RepeatLetterMode);
    FormattedIsTrimmed(text);
    assert Letter(r) == r[0] == Letter(text);
  }
}
