/**
 * The few Python string operations the scripts rely on: `startswith`, the
 * substring test `in`, `strip()`, `rfind`, `replace` of a single character
 * and `title()`. Whitespace is Python's full set; letter case is ASCII only.
 */
module Text {

  /** Python `s.startswith(prefix)`. */
  predicate StartsWith(s: string, prefix: string) {
    |prefix| <= |s| && s[..|prefix|] == prefix
  }

  /** Python `sub in s`: `sub` occurs at some position of `s`. */
  predicate Contains(s: string, sub: string) {
    exists i | 0 <= i <= |s| - |sub| :: OccursAt(s, sub, i)
  }

  /** `sub` sits in `s` starting at index `i`. */
  predicate OccursAt(s: string, sub: string, i: int) {
    0 <= i <= |s| - |sub| && s[i..i + |sub|] == sub
  }

  /**
   * The characters Python's `str.isspace()` accepts, which `strip()` with no
   * argument removes: the ASCII controls 9-13 and 28-31, the space, NEL,
   * the no-break space, the Ogham space mark, the spaces 2000-200A, the
   * line and paragraph separators, the narrow no-break space, the medium
   * mathematical space and the ideographic space.
   */
  predicate IsSpace(c: char) {
    ('\t' <= c <= '\r') || ('\U{1C}' <= c <= ' ')
    || c == '\U{85}' || c == '\U{A0}' || c == '\U{1680}'
    || ('\U{2000}' <= c <= '\U{200A}') || c == '\U{2028}' || c == '\U{2029}'
    || c == '\U{202F}' || c == '\U{205F}' || c == '\U{3000}'
  }

  /** The number of leading whitespace characters of `s`. */
  function Lead(s: string): (i: nat)
    ensures i <= |s|
    ensures forall k | 0 <= k < i :: IsSpace(s[k])
    ensures i < |s| ==> !IsSpace(s[i])
  {
    if |s| > 0 && IsSpace(s[0]) then
      var i := 1 + Lead(s[1..]);
      assert forall k | 1 <= k < i :: s[k] == s[1..][k - 1];
      i
    else 0
  }

  /** Where the text ends once trailing whitespace after position `i` is dropped. */
  function Trail(s: string, i: nat): (j: nat)
    requires i <= |s|
    ensures i <= j <= |s|
    ensures forall k | j <= k < |s| :: IsSpace(s[k])
    ensures j > i ==> !IsSpace(s[j - 1])
    decreases |s|
  {
    if |s| > i && IsSpace(s[|s| - 1]) then
      var j := Trail(s[..|s| - 1], i);
      assert forall k | j <= k < |s| - 1 :: s[k] == s[..|s| - 1][k];
      j
    else |s|
  }

  /** Python `s.strip()`: the slice of `s` between its leading and trailing whitespace. */
  function Strip(s: string): string {
    s[Lead(s)..Trail(s, Lead(s))]
  }

  /**
   * Stripping removes whitespace only, and only at the two ends: the result
   * is a slice of `s` with whitespace before and after it, and it neither
   * starts nor ends with whitespace.
   */
  lemma StripTrims(s: string)
    ensures exists i, j | 0 <= i <= j <= |s| ::
      (Strip(s) == s[i..j]
      && (forall k | 0 <= k < i :: IsSpace(s[k]))
      && (forall k | j <= k < |s| :: IsSpace(s[k])))
    ensures Strip(s) != [] ==> !IsSpace(Strip(s)[0]) && !IsSpace(Strip(s)[|Strip(s)| - 1])
  {
    var i := Lead(s);
    var j := Trail(s, i);
    assert Strip(s) == s[i..j];
  }

  /** Python `s.rfind(c)` for one character: the last index holding `c`, or -1. */
  function LastIndexOf(s: string, c: char): (k: int)
    ensures -1 <= k < |s|
    ensures k >= 0 ==> s[k] == c
    ensures forall j | k < j < |s| :: s[j] != c
  {
    if s == [] then -1
    else if s[|s| - 1] == c then |s| - 1
    else LastIndexOf(s[..|s| - 1], c)
  }

  /** Python `s.replace(a, b)` for single characters. */
  function ReplaceChar(s: string, a: char, b: char): (r: string)
    ensures |r| == |s|
    ensures forall k | 0 <= k < |s| :: r[k] == (if s[k] == a then b else s[k])
  {
    if s == [] then [] else ReplaceChar(s[..|s| - 1], a, b) + [if s[|s| - 1] == a then b else s[|s| - 1]]
  }

  predicate IsUpper(c: char) { 'A' <= c <= 'Z' }
  predicate IsLower(c: char) { 'a' <= c <= 'z' }
  /** Cased characters: for ASCII text, the letters. */
  predicate IsCased(c: char) { IsUpper(c) || IsLower(c) }

  function ToUpper(c: char): char { if IsLower(c) then (c as int - 32) as char else c }
  function ToLower(c: char): char { if IsUpper(c) then (c as int + 32) as char else c }

  /**
   * Python `str.title()` as CPython's loop computes it: each character is
   * lower-cased when the previous character is cased and upper-cased
   * otherwise; `prevCased` is that flag on entry.
   */
  function TitleFrom(s: string, prevCased: bool): (r: string)
    ensures |r| == |s|
    decreases |s|
  {
    if s == [] then []
    else
      var c := if prevCased then ToLower(s[0]) else ToUpper(s[0]);
      [c] + TitleFrom(s[1..], IsCased(c))
  }

  function Title(s: string): string {
    TitleFrom(s, false)
  }

  /**
   * What `title()` does to each position: a character that starts a word
   * (it is first, or follows a character that is not a letter) is
   * upper-cased, every other character is lower-cased.
   */
  lemma {:induction false} TitleFromAt(s: string, prevCased: bool, k: nat)
    requires k < |s|
    ensures |TitleFrom(s, prevCased)| == |s|
    ensures TitleFrom(s, prevCased)[k] ==
      if (if k == 0 then prevCased else IsCased(s[k - 1])) then ToLower(s[k]) else ToUpper(s[k])
  {
    if k == 0 {
      if |s| > 1 {
        TitleFromAt(s[1..], IsCased(if prevCased then ToLower(s[0]) else ToUpper(s[0])), 0);
      }
    } else {
      TitleFromAt(s[1..], IsCased(if prevCased then ToLower(s[0]) else ToUpper(s[0])), k - 1);
    }
  }

  lemma TitleAt(s: string, k: nat)
    requires k < |s|
    ensures |Title(s)| == |s|
    ensures Title(s)[k] == if k > 0 && IsCased(s[k - 1]) then ToLower(s[k]) else ToUpper(s[k])
  {
    TitleFromAt(s, false, k);
  }

  /** Title-casing an already title-cased string changes nothing. */
  lemma TitleIdempotent(s: string)
    ensures Title(Title(s)) == Title(s)
  {
    var t := Title(s);
    if s != [] {
      TitleAt(s, 0);
      assert |Title(t)| == |t| == |s|;
      forall k | 0 <= k < |s| ensures Title(t)[k] == t[k] {
        TitleAt(s, k);
        TitleAt(t, k);
        if k > 0 { TitleAt(s, k - 1); }
      }
    }
  }
}
