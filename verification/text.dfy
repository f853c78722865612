/**
 Character-level helpers the controller relies on: lower-casing (Ruby's
 `String#downcase`, and the lower-cased comparison of `CaseInsensitiveString`),
 ActiveSupport's `blank?`, the double quotes around an entity tag, and the
 shape of an MD5 hex digest.
 */
module Text {
  import opened Base

  predicate IsUpper(c: char) {
    'A' <= c <= 'Z'
  }

  /** Lower-cases one character; only ASCII letters change. */
  function LowerChar(c: char): (d: char)
    ensures !IsUpper(d)
    ensures IsUpper(c) ==> 'a' <= d <= 'z' && d as int - 'a' as int == c as int - 'A' as int
    ensures !IsUpper(c) ==> d == c
  {
    if IsUpper(c) then (c as int + 32) as char else c
  }

  /** A string that lower-casing leaves as it is. */
  predicate IsLowerCase(s: string) {
    forall i :: 0 <= i < |s| ==> !IsUpper(s[i])
  }

  /** `String#downcase`, restricted to ASCII letters. */
  function Lower(s: string): (r: string)
    ensures |r| == |s|
    ensures forall i :: 0 <= i < |s| ==> r[i] == LowerChar(s[i])
    ensures IsLowerCase(r)
  {
    if s == [] then [] else [LowerChar(s[0])] + Lower(s[1..])
  }

  /** Lower-casing a lower-case string changes nothing. */
  lemma LowerOfLowerCase(s: string)
    requires IsLowerCase(s)
    ensures Lower(s) == s
  {
  }

  /** Lower-casing is idempotent: a cache key is its own key. */
  lemma LowerIdempotent(s: string)
    ensures Lower(Lower(s)) == Lower(s)
  {
    LowerOfLowerCase(Lower(s));
  }

  /** Two names denote the same pipeline when they agree after lower-casing. */
  predicate SameName(a: string, b: string) {
    Lower(a) == Lower(b)
  }

  /** `c` and `d` are the same character, or the same ASCII letter in the two cases. */
  predicate SameLetterIgnoringCase(c: char, d: char) {
    || c == d
    || ('A' <= c <= 'Z' && d as int == c as int + 32)
    || ('A' <= d <= 'Z' && c as int == d as int + 32)
  }

  /** Names differing only in the case of their letters are the same name. */
  lemma CaseVariantsAreSameName(a: string, b: string)
    requires |a| == |b|
    requires forall i :: 0 <= i < |a| ==> SameLetterIgnoringCase(a[i], b[i])
    ensures SameName(a, b)
  {
  }

  /** Whitespace in the sense of the POSIX `[[:space:]]` class, ASCII part. */
  predicate IsSpace(c: char) {
    c == ' ' || c == '\t' || c == '\n' || c == '\r' || c as int == 11 || c as int == 12
  }

  /** ActiveSupport's `Object#blank?` on an optional string parameter:
      `nil`, the empty string and all-whitespace strings are blank. */
  predicate Blank(v: Option<string>) {
    match v
    case None => true
    case Some(s) => forall i :: 0 <= i < |s| ==> IsSpace(s[i])
  }

  /** ActiveSupport's own test, `/\A[[:space:]]*\z/`: a run of whitespace from start to end. */
  predicate SpaceRun(s: string) {
    s == [] || (IsSpace(s[0]) && SpaceRun(s[1..]))
  }

  /** A present parameter is blank exactly when it matches the whitespace pattern. */
  lemma {:induction false} BlankIffSpaceRun(s: string)
    ensures Blank(Some(s)) <==> SpaceRun(s)
  {
    if s != [] {
      BlankIffSpaceRun(s[1..]);
      assert forall i :: 0 < i < |s| ==> s[i] == s[1..][i - 1];
    }
  }

  /** `"\"#{s}\""`: a strong entity tag built from `s`. */
  function Quote(s: string): (r: string)
    ensures |r| == |s| + 2
    ensures r[0] == '"' && r[|r| - 1] == '"'
    ensures r[1..|r| - 1] == s
  {
    "\"" + s + "\""
  }

  predicate IsHexChar(c: char) {
    ('0' <= c <= '9') || ('a' <= c <= 'f')
  }

  /** The shape of `Digest::MD5.hexdigest`: 32 lower-case hex digits (RFC 1321's 128 bits). */
  predicate IsHexDigest(s: string) {
    |s| == 32 && forall i :: 0 <= i < |s| ==> IsHexChar(s[i])
  }

  /** A quoted hex digest holds no comma, so no list of entity tags is one. */
  lemma QuotedDigestHasNoComma(h: string, s: string)
    requires IsHexDigest(h)
    requires exists i :: 0 <= i < |s| && s[i] == ','
    ensures s != Quote(h)
  {
  }
}
