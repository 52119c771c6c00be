/** Python's `str.strip()` and `str.lower()`, on the ASCII range. */
module Text {

  /** `c.isspace()` for ASCII `c`: tab, line feed, vertical tab, form feed, carriage return,
      the four information separators 0x1C-0x1F, and space. */
  predicate IsSpace(c: char) {
    (9 <= c as int <= 13) || (28 <= c as int <= 32)
  }

  predicate IsUpper(c: char) {
    'A' <= c <= 'Z'
  }

  /** The index of the first non-whitespace character of `s` at or after `i` (or `|s|`). */
  function SkipSpaces(s: string, i: nat): (k: nat)
    requires i <= |s|
    ensures i <= k <= |s|
    ensures k == |s| || !IsSpace(s[k])
    decreases |s| - i
  {
    if i < |s| && IsSpace(s[i]) then SkipSpaces(s, i + 1) else i
  }

  /** Everything `SkipSpaces` skips is whitespace. */
  lemma {:induction false} SkipSpacesSkips(s: string, i: nat)
    requires i <= |s|
    ensures forall j :: i <= j < SkipSpaces(s, i) ==> IsSpace(s[j])
    decreases |s| - i
  {
    if i < |s| && IsSpace(s[i]) {
      SkipSpacesSkips(s, i + 1);
    }
  }

  /** The length of the prefix of `s[..j]` that ends at its last non-whitespace character. */
  function SkipSpacesBack(s: string, j: nat): (k: nat)
    requires j <= |s|
    ensures k <= j
    ensures k == 0 || !IsSpace(s[k - 1])
  {
    if j > 0 && IsSpace(s[j - 1]) then SkipSpacesBack(s, j - 1) else j
  }

  /** Everything `SkipSpacesBack` skips is whitespace. */
  lemma {:induction false} SkipSpacesBackSkips(s: string, j: nat)
    requires j <= |s|
    ensures forall i :: SkipSpacesBack(s, j) <= i < j ==> IsSpace(s[i])
  {
    if j > 0 && IsSpace(s[j - 1]) {
      SkipSpacesBackSkips(s, j - 1);
    }
  }

  /** `s.strip()`: `s` without its leading and trailing whitespace. */
  function Strip(s: string): (r: string)
    ensures |r| <= |s|
  {
    var k, e := SkipSpaces(s, 0), SkipSpacesBack(s, |s|);
    if k < e then s[k..e] else []
  }

  /** `r` is `s[k..k + |r|]` and everything of `s` outside that slice is whitespace. */
  ghost predicate Trims(s: string, k: nat, r: string) {
    && k + |r| <= |s|
    && r == s[k..k + |r|]
    && (forall i :: 0 <= i < k ==> IsSpace(s[i]))
    && (forall i :: k + |r| <= i < |s| ==> IsSpace(s[i]))
  }

  /** What stripping means: the result is empty exactly when `s` is all whitespace, otherwise it
      starts and ends with a non-whitespace character, and it is a slice of `s` outside which
      there is only whitespace. */
  lemma StripSpec(s: string)
    ensures Strip(s) == [] <==> forall i :: 0 <= i < |s| ==> IsSpace(s[i])
    ensures Strip(s) == [] || (!IsSpace(Strip(s)[0]) && !IsSpace(Strip(s)[|Strip(s)| - 1]))
    ensures exists k :: Trims(s, k, Strip(s))
  {
    var k, e := SkipSpaces(s, 0), SkipSpacesBack(s, |s|);
    SkipSpacesSkips(s, 0);
    SkipSpacesBackSkips(s, |s|);
    assert k < |s| ==> k < e;
    assert Trims(s, if k < e then k else 0, Strip(s));
  }

  /** Stripping twice strips nothing more. */
  lemma StripIdempotent(s: string)
    ensures Strip(Strip(s)) == Strip(s)
  {
    StripSpec(s);
    var r := Strip(s);
    assert SkipSpaces(r, 0) == 0;
    assert SkipSpacesBack(r, |r|) == |r|;
  }

  /** A string that stripping leaves unchanged is blank only when it is empty. */
  lemma StrippedBlank(s: string)
    requires Strip(s) == s
    ensures (forall i :: 0 <= i < |s| ==> IsSpace(s[i])) <==> s == []
  {
    StripSpec(s);
  }

  /** `c.lower()` for ASCII `c`. */
  function LowerChar(c: char): (d: char)
    ensures !IsUpper(d)
    ensures IsUpper(c) ==> d as int == c as int + 32
    ensures !IsUpper(c) ==> d == c
  {
    if IsUpper(c) then (c as int + 32) as char else c
  }

  /** `s.lower()`: every upper-case ASCII letter replaced by its lower-case form. */
  function Lower(s: string): (r: string)
    ensures |r| == |s|
    ensures forall i :: 0 <= i < |s| ==> r[i] == LowerChar(s[i])
  {
    seq(|s|, i requires 0 <= i < |s| => LowerChar(s[i]))
  }

  /** A string without upper-case letters is its own lower-case form. */
  lemma LowerOfLowerCase(s: string)
    requires forall i :: 0 <= i < |s| ==> !IsUpper(s[i])
    ensures Lower(s) == s
  {
    assert forall i :: 0 <= i < |s| ==> Lower(s)[i] == s[i];
  }

  /** Lower-casing twice changes nothing more. */
  lemma LowerIdempotent(s: string)
    ensures Lower(Lower(s)) == Lower(s)
  {
    LowerOfLowerCase(Lower(s));
  }
}
