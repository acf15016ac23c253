/** Small helpers shared by the modules below: an Option type and the few
    JavaScript string operations the application relies on
    (`String.prototype.toLowerCase`, `trim` and `includes`). */
module Wrappers {
  datatype Option<+T> = None | Some(value: T)
}

module JsText {

  /** JavaScript's `toLowerCase` restricted to ASCII: 'A'..'Z' become 'a'..'z'. */
  function LowerChar(c: char): char {
    if 'A' <= c <= 'Z' then (c as int + 32) as char else c
  }

  predicate IsUpperAscii(c: char) {
    'A' <= c <= 'Z'
  }

  /** `s.toLowerCase()` (ASCII letters only): each upper-case ASCII letter
      becomes its lower-case letter, so none is left, and every other
      character stays where it was. */
  function ToLower(s: string): (r: string)
    ensures |r| == |s|
    ensures forall i :: 0 <= i < |r| ==> !IsUpperAscii(r[i])
    ensures forall i :: 0 <= i < |s| && IsUpperAscii(s[i]) ==> r[i] == (s[i] as int + 32) as char
    ensures forall i :: 0 <= i < |s| && !IsUpperAscii(s[i]) ==> r[i] == s[i]
  {
    seq(|s|, i requires 0 <= i < |s| => LowerChar(s[i]))
  }

  /** Lower-casing twice is the same as lower-casing once. */
  lemma ToLowerIdempotent(s: string)
    ensures ToLower(ToLower(s)) == ToLower(s)
  {
    var once := ToLower(s);
    assert forall i :: 0 <= i < |once| ==> LowerChar(once[i]) == once[i];
  }

  /** The characters JavaScript's `trim` removes: WhiteSpace and
      LineTerminator of the ECMAScript grammar. */
  predicate IsJsWhitespace(c: char)
    ensures c == ' ' || c == '\t' || c == '\n' || c == '\r' ==> IsJsWhitespace(c)
    ensures '!' <= c <= '~' ==> !IsJsWhitespace(c)
  {
    c == '\t' || c == '\n' || c == '\U{000B}' || c == '\U{000C}' || c == '\r' ||
    c == ' ' || c == '\U{00A0}' || c == '\U{1680}' ||
    ('\U{2000}' <= c <= '\U{200A}') ||
    c == '\U{2028}' || c == '\U{2029}' || c == '\U{202F}' || c == '\U{205F}' ||
    c == '\U{3000}' || c == '\U{FEFF}'
  }

  /** Every character of `s` is whitespace (vacuously so for ""). */
  predicate IsBlank(s: string) {
    forall i :: 0 <= i < |s| ==> IsJsWhitespace(s[i])
  }

  /** Drops the leading whitespace: the result is a suffix of `s`, everything
      dropped is whitespace, and the result does not start with whitespace. */
  function TrimStart(s: string): (r: string)
    ensures |r| <= |s| && r == s[|s| - |r|..]
    ensures IsBlank(s[..|s| - |r|])
    ensures r != [] ==> !IsJsWhitespace(r[0])
  {
    if s != [] && IsJsWhitespace(s[0]) then TrimStart(s[1..]) else s
  }

  /** Drops the trailing whitespace: the result is a prefix of `s`, everything
      dropped is whitespace, and the result does not end with whitespace. */
  function TrimEnd(s: string): (r: string)
    ensures |r| <= |s| && r == s[..|r|]
    ensures IsBlank(s[|r|..])
    ensures r != [] ==> !IsJsWhitespace(r[|r| - 1])
  {
    if s != [] && IsJsWhitespace(s[|s| - 1]) then TrimEnd(s[..|s| - 1]) else s
  }

  /** `r` occurs in `s` at `i` with only whitespace before and after it. */
  predicate PaddedAt(s: string, r: string, i: int) {
    OccursAt(s, r, i) && IsBlank(s[..i]) && IsBlank(s[i + |r|..])
  }

  /** A piece taken from position `i` of `s` occurs there. */
  lemma SliceOccurs(s: string, i: nat, r: string)
    requires i <= |s| && IsPrefix(r, s[i..])
    ensures OccursAt(s, r, i)
  {
    forall j | 0 <= j < |r|
      ensures s[i + j] == r[j]
    {
      assert s[i..][j] == s[i + j];
    }
  }

  /** Trimming both ends leaves a piece of `s` with only whitespace around it. */
  lemma TrimmedIsPadded(s: string)
    ensures PaddedAt(s, TrimEnd(TrimStart(s)), |s| - |TrimStart(s)|)
  {
    var t := TrimStart(s);
    var r := TrimEnd(t);
    var i := |s| - |t|;
    assert t == s[i..];
    assert IsPrefix(r, t);
    SliceOccurs(s, i, r);
    assert s[i + |r|..] == t[|r|..];
  }

  /** `s.trim()`: a contiguous piece of `s` with only whitespace around it in
      `s`, which neither starts nor ends with whitespace. */
  function Trim(s: string): (r: string)
    ensures exists i :: PaddedAt(s, r, i)
    ensures r != [] ==> !IsJsWhitespace(r[0]) && !IsJsWhitespace(r[|r| - 1])
  {
    TrimmedIsPadded(s);
    TrimEnd(TrimStart(s))
  }

  /** `!s.trim()` holds, i.e. the trimmed string is "", exactly when `s` is blank. */
  lemma TrimEmptyIffBlank(s: string)
    ensures Trim(s) == [] <==> IsBlank(s)
  {
    var t := TrimStart(s);
    if t != [] {
      // t starts with a non-whitespace character, which TrimEnd keeps
      assert t[0..] == t;
    }
  }

  /** `!s.trim()`: trimming leaves nothing, which happens exactly when `s`
      is blank. A method rather than a predicate so that its callers see
      only this contract, not the unfolding of `Trim`. */
  method TrimsToEmpty(s: string) returns (empty: bool)
    ensures empty <==> IsBlank(s)
  {
    TrimEmptyIffBlank(s);
    empty := Trim(s) == [];
  }

  /** `p` is a prefix of `s`. */
  predicate IsPrefix(p: string, s: string) {
    |p| <= |s| && forall j :: 0 <= j < |p| ==> s[j] == p[j]
  }

  /** `t` occurs in `s` starting at position `i`. */
  predicate OccursAt(s: string, t: string, i: int) {
    0 <= i && i + |t| <= |s| && forall j :: 0 <= j < |t| ==> s[i + j] == t[j]
  }

  /** JavaScript's `s.includes(t)`: `t` occurs in `s` as a contiguous
      substring; "" occurs in every string, and nothing longer than `s` does. */
  predicate Contains(s: string, t: string)
    ensures t == [] ==> Contains(s, t)
    ensures Contains(s, t) ==> |t| <= |s|
  {
    assert t == [] ==> OccursAt(s, t, 0);
    exists i :: 0 <= i <= |s| && OccursAt(s, t, i)
  }

  /** A string occurs in anything that contains a string it is a prefix of
      (so containing "sandy" implies containing "sand"). */
  lemma ContainsPrefixOf(s: string, t: string, p: string)
    requires Contains(s, t) && IsPrefix(p, t)
    ensures Contains(s, p)
  {
    var i :| 0 <= i <= |s| && OccursAt(s, t, i);
    assert OccursAt(s, p, i);
  }

  /** A string that uses a character absent from `s` does not occur in `s`. */
  lemma MissingCharNotContained(s: string, t: string, c: char)
    requires c in t && c !in s
    ensures !Contains(s, t)
  {
  }
}
