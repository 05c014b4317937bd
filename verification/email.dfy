/**
  Email normalisation as done by `login_user` before any lookup:
  `str(email).strip().lower()`.

  `Strip` removes the characters Python's `str.isspace` accepts from both
  ends. `Lower` maps the ASCII and Latin-1 upper-case letters to lower case;
  the rest of Unicode case mapping is not modelled.
 */
module Email {

  /** The characters Python's `str.isspace()` accepts, which `str.strip()` removes. */
  predicate IsSpace(c: char)
  {
    || ('\t' <= c <= '\r')
    || ('\U{1C}' <= c <= ' ')
    || c == '\U{85}'
    || c == '\U{A0}'
    || c == '\U{1680}'
    || ('\U{2000}' <= c <= '\U{200A}')
    || c == '\U{2028}'
    || c == '\U{2029}'
    || c == '\U{202F}'
    || c == '\U{205F}'
    || c == '\U{3000}'
  }

  /** Every character of `s` from index `lo` up to (not including) `hi` is white space. */
  predicate SpaceBetween(s: string, lo: int, hi: int)
    requires 0 <= lo && hi <= |s|
  {
    forall k :: lo <= k < hi ==> IsSpace(s[k])
  }

  /** Neither end of `s` is white space. */
  predicate Stripped(s: string)
  {
    |s| == 0 || (!IsSpace(s[0]) && !IsSpace(s[|s| - 1]))
  }

  /** Scanning right from `i`, the first position that is not white space (or the end). */
  function SkipSpace(s: string, i: nat): (j: nat)
    requires i <= |s|
    ensures i <= j <= |s|
    ensures SpaceBetween(s, i, j)
    ensures j < |s| ==> !IsSpace(s[j])
    decreases |s| - i
  {
    if i < |s| && IsSpace(s[i]) then SkipSpace(s, i + 1) else i
  }

  /** Scanning left from `j` but not below `lo`, the end of the last character that is not white space. */
  function SkipSpaceBack(s: string, lo: nat, j: nat): (k: nat)
    requires lo <= j <= |s|
    ensures lo <= k <= j
    ensures SpaceBetween(s, k, j)
    ensures k > lo ==> !IsSpace(s[k - 1])
    decreases j
  {
    if j > lo && IsSpace(s[j - 1]) then SkipSpaceBack(s, lo, j - 1) else j
  }

  /**
    The part of `s` that `str.strip()` keeps, as `s[lo..hi]`: all white space
    before `lo` and from `hi` on, and a kept part that neither starts nor ends
    with white space.
   */
  function StripBounds(s: string): (b: (nat, nat))
    ensures b.0 <= b.1 <= |s|
    ensures SpaceBetween(s, 0, b.0) && SpaceBetween(s, b.1, |s|)
    ensures b.0 < b.1 ==> !IsSpace(s[b.0]) && !IsSpace(s[b.1 - 1])
  {
    var lo := SkipSpace(s, 0);
    (lo, SkipSpaceBack(s, lo, |s|))
  }

  /** Python's `str.strip()`: `s` loses its white space at both ends and nothing else. */
  function Strip(s: string): (r: string)
    ensures Stripped(r)
    ensures r == s[StripBounds(s).0..StripBounds(s).1]
  {
    var (lo, hi) := StripBounds(s);
    s[lo..hi]
  }

  predicate IsUpper(c: char)
  {
    ('A' <= c <= 'Z') || ('\U{C0}' <= c <= '\U{DE}' && c != '\U{D7}')
  }

  /** Lower-cases one character; white space and non-letters pass through. */
  function LowerChar(c: char): (r: char)
    ensures !IsUpper(r)
    ensures IsSpace(r) <==> IsSpace(c)
    ensures !IsUpper(c) ==> r == c
    ensures IsUpper(c) ==> r as int == c as int + 32
  {
    if IsUpper(c) then (c as int + 32) as char else c
  }

  /** Python's `str.lower()` restricted to the letters `IsUpper` knows. */
  function Lower(s: string): (r: string)
    ensures |r| == |s|
    ensures forall i :: 0 <= i < |s| ==> r[i] == LowerChar(s[i])
  {
    if |s| == 0 then [] else [LowerChar(s[0])] + Lower(s[1..])
  }

  predicate NoUpper(s: string)
  {
    forall i :: 0 <= i < |s| ==> !IsUpper(s[i])
  }

  /** `str(email).strip().lower()`: the key under which a user row is stored. */
  function Normalize(email: string): (r: string)
    ensures Stripped(r)
    ensures NoUpper(r)
    ensures |r| <= |email|
  {
    Lower(Strip(email))
  }

  /** `SkipSpace` stops exactly at the first non-white-space position: any such position is its result. */
  lemma {:induction false} SkipSpaceUnique(s: string, i: nat, j: nat)
    requires i <= j <= |s|
    requires SpaceBetween(s, i, j)
    requires j < |s| ==> !IsSpace(s[j])
    ensures SkipSpace(s, i) == j
    decreases j - i
  {
    if i < j {
      SkipSpaceUnique(s, i + 1, j);
    }
  }

  /** `SkipSpaceBack` stops exactly after the last non-white-space position. */
  lemma {:induction false} SkipSpaceBackUnique(s: string, lo: nat, j: nat, k: nat)
    requires lo <= k <= j <= |s|
    requires SpaceBetween(s, k, j)
    requires k > lo ==> !IsSpace(s[k - 1])
    ensures SkipSpaceBack(s, lo, j) == k
    decreases j - k
  {
    if k < j {
      SkipSpaceBackUnique(s, lo, j - 1, k);
    }
  }

  /**
    `Strip` removes white space at the ends and nothing more: a string that
    neither starts nor ends with white space, padded on both sides with white
    space, strips back to itself.
   */
  lemma StripPadded(before: string, r: string, after: string)
    requires SpaceBetween(before, 0, |before|) && SpaceBetween(after, 0, |after|)
    requires Stripped(r)
    ensures Strip(before + r + after) == r
  {
    var s := before + r + after;
    if |r| == 0 {
      SkipSpaceUnique(s, 0, |s|);
      SkipSpaceBackUnique(s, |s|, |s|, |s|);
    } else {
      SkipSpaceUnique(s, 0, |before|);
      SkipSpaceBackUnique(s, |before|, |s|, |before| + |r|);
      assert s[|before|..|before| + |r|] == r;
    }
  }

  /** A string that is already stripped is left alone by `Strip`. */
  lemma StripStripped(s: string)
    requires Stripped(s)
    ensures Strip(s) == s
  {
    StripPadded("", s, "");
    assert "" + s + "" == s;
  }

  /** A string without upper-case letters is its own lower case. */
  lemma LowerNoUpper(s: string)
    requires NoUpper(s)
    ensures Lower(s) == s
  {
  }

  /** Normalising twice is normalising once, so a normalised email is its own key. */
  lemma NormalizeIdempotent(email: string)
    ensures Normalize(Normalize(email)) == Normalize(email)
  {
  }
}
