/**
 * Tracking-number validation (script.js, validateTrackingNumber).
 *
 * A candidate is trimmed as by ECMAScript's String.prototype.trim and then
 * matched against the anchored pattern ^[A-Za-z0-9]{8,}$.
 */
module Validation {

  /** The characters String.prototype.trim strips: ECMAScript's WhiteSpace
      (tab, vertical tab, form feed, space, no-break space, zero-width
      no-break space and every other Unicode space separator) and
      LineTerminator (line feed, carriage return, U+2028, U+2029). */
  predicate IsTrimmable(c: char)
    ensures IsTrimmable(c) ==> !IsAsciiAlnum(c)
  {
    || c == '\t' || c == '\n' || c == '\U{000B}' || c == '\U{000C}' || c == '\r'
    || c == ' ' || c == '\U{00A0}' || c == '\U{1680}'
    || ('\U{2000}' <= c <= '\U{200A}')
    || c == '\U{2028}' || c == '\U{2029}' || c == '\U{202F}' || c == '\U{205F}'
    || c == '\U{3000}' || c == '\U{FEFF}'
  }

  /** The character class [A-Za-z0-9]. */
  predicate IsAsciiAlnum(c: char)
    ensures IsAsciiAlnum(c) ==> c as int < 128
  {
    ('A' <= c <= 'Z') || ('a' <= c <= 'z') || ('0' <= c <= '9')
  }

  predicate AllTrimmable(s: string) {
    forall k :: 0 <= k < |s| ==> IsTrimmable(s[k])
  }

  /** Number of leading trimmable characters of `s`: the index at which
      trimming from the left stops. */
  function LeadingSpace(s: string): (i: nat)
    ensures i <= |s|
    ensures forall k :: 0 <= k < i ==> IsTrimmable(s[k])
    ensures i < |s| ==> !IsTrimmable(s[i])
    decreases |s|
  {
    if s != [] && IsTrimmable(s[0]) then 1 + LeadingSpace(s[1..]) else 0
  }

  /** The index at which trimming from the right stops: every character from
      it on is trimmable, and the one before it is not. */
  function TrailingSpaceStart(s: string): (j: nat)
    ensures j <= |s|
    ensures forall k :: j <= k < |s| ==> IsTrimmable(s[k])
    ensures j > 0 ==> !IsTrimmable(s[j - 1])
    decreases |s|
  {
    if s != [] && IsTrimmable(s[|s| - 1]) then TrailingSpaceStart(s[..|s| - 1]) else |s|
  }

  /** String.prototype.trim: drop the leading, then the trailing whitespace.
      The result is the span of `s` that starts where the leading whitespace
      ends, with only whitespace after it and non-whitespace at both ends. */
  function Trim(s: string): (r: string)
    ensures LeadingSpace(s) + |r| <= |s|
    ensures IsTrimSpan(s, LeadingSpace(s), LeadingSpace(s) + |r|)
    ensures r == s[LeadingSpace(s)..LeadingSpace(s) + |r|]
  {
    var i := LeadingSpace(s);
    var u := s[i..];
    var r := u[..TrailingSpaceStart(u)];
    assert forall k :: i + |r| <= k < |s| ==> s[k] == u[k - i];
    r
  }

  /** `s[i..j]` is the core of `s` once the whitespace around it is dropped:
      everything outside it is trimmable and its ends are not. */
  predicate IsTrimSpan(s: string, i: nat, j: nat) {
    && i <= j <= |s|
    && (forall k :: 0 <= k < i ==> IsTrimmable(s[k]))
    && (forall k :: j <= k < |s| ==> IsTrimmable(s[k]))
    && (i < j ==> !IsTrimmable(s[i]) && !IsTrimmable(s[j - 1]))
  }

  /** Length of the longest prefix of `t` in the class [A-Za-z0-9]; this is
      how far the greedy repetition of the class advances from the start. */
  function AlnumPrefixLength(t: string): (n: nat)
    ensures n <= |t|
    ensures forall k :: 0 <= k < n ==> IsAsciiAlnum(t[k])
    ensures n < |t| ==> !IsAsciiAlnum(t[n])
    decreases |t|
  {
    if t != [] && IsAsciiAlnum(t[0]) then 1 + AlnumPrefixLength(t[1..]) else 0
  }

  /** `t` matches ^[A-Za-z0-9]{8,}$: the repetition starting at the first
      character reaches the end anchor, after at least eight characters. */
  predicate MatchesTrackingPattern(t: string)
    ensures MatchesTrackingPattern(t) <==>
              |t| >= 8 && forall k :: 0 <= k < |t| ==> IsAsciiAlnum(t[k])
  {
    var n := AlnumPrefixLength(t);
    n == |t| && n >= 8
  }

  /** validateTrackingNumber: the value is a string (always so here, since
      the input is typed `string`) and its trimmed form matches the pattern. */
  predicate ValidateTrackingNumber(num: string)
    ensures ValidateTrackingNumber(num) <==>
              |Trim(num)| >= 8 && forall k :: 0 <= k < |Trim(num)| ==> IsAsciiAlnum(Trim(num)[k])
  {
    MatchesTrackingPattern(Trim(num))
  }

  /** The form the validator accepts, stated without Trim: whitespace, then
      at least eight ASCII letters or digits, then whitespace. */
  predicate PaddedCode(s: string, i: nat, j: nat) {
    && i <= j <= |s| && j - i >= 8
    && (forall k :: 0 <= k < i ==> IsTrimmable(s[k]))
    && (forall k :: j <= k < |s| ==> IsTrimmable(s[k]))
    && (forall k :: i <= k < j ==> IsAsciiAlnum(s[k]))
  }

  // ---------------------------------------------------------------------
  // Trim

  /** Trimming from the left stops exactly at the first non-trimmable
      character. */
  lemma LeadingSpaceAt(s: string, i: nat)
    requires i <= |s| && forall k :: 0 <= k < i ==> IsTrimmable(s[k])
    requires i == |s| || !IsTrimmable(s[i])
    ensures LeadingSpace(s) == i
  {
  }

  /** Trimming from the right stops exactly after the last non-trimmable
      character. */
  lemma TrailingSpaceStartAt(s: string, j: nat)
    requires j <= |s| && forall k :: j <= k < |s| ==> IsTrimmable(s[k])
    requires j == 0 || !IsTrimmable(s[j - 1])
    ensures TrailingSpaceStart(s) == j
  {
  }

  /** Trim returns the span of `s` that lies between its leading and its
      trailing whitespace, and that span is unique. */
  lemma TrimIsSpan(s: string, i: nat, j: nat)
    requires IsTrimSpan(s, i, j)
    ensures Trim(s) == s[i..j]
  {
    if i == j {
      LeadingSpaceAt(s, |s|);
    } else {
      LeadingSpaceAt(s, i);
      var u := s[i..];
      TrailingSpaceStartAt(u, j - i);
    }
  }

  /** Trimming twice is trimming once: the handler trims before calling the
      validator, which trims again. */
  lemma {:induction false} TrimIdempotent(s: string)
    ensures Trim(Trim(s)) == Trim(s)
  {
    var i := LeadingSpace(s);
    var j := i + |Trim(s)|;
    var t := s[i..j];
    TrimIsSpan(t, 0, j - i);
  }

  /** Whitespace added around a string keeps its trim span, shifted by the
      length of the left padding. */
  lemma SpanShift(w1: string, s: string, w2: string, i: nat, j: nat)
    requires AllTrimmable(w1) && AllTrimmable(w2) && IsTrimSpan(s, i, j)
    ensures IsTrimSpan(w1 + s + w2, |w1| + i, |w1| + j)
  {
    var t := w1 + s + w2;
    forall k | 0 <= k < |w1| + i ensures IsTrimmable(t[k]) {
      if k < |w1| {
        assert t[k] == w1[k];
      } else {
        assert t[k] == s[k - |w1|];
      }
    }
    forall k | |w1| + j <= k < |t| ensures IsTrimmable(t[k]) {
      if k < |w1| + |s| {
        assert t[k] == s[k - |w1|];
      } else {
        assert t[k] == w2[k - |w1| - |s|];
      }
    }
    if i < j {
      assert t[|w1| + i] == s[i] && t[|w1| + j - 1] == s[j - 1];
    }
  }

  /** Whitespace added around a string does not change its trimmed form. */
  lemma {:induction false} TrimIgnoresPadding(w1: string, s: string, w2: string)
    requires AllTrimmable(w1) && AllTrimmable(w2)
    ensures Trim(w1 + s + w2) == Trim(s)
  {
    var i := LeadingSpace(s);
    var j := i + |Trim(s)|;
    var t := w1 + s + w2;
    SpanShift(w1, s, w2, i, j);
    assert t[|w1| + i..|w1| + j] == s[i..j];
    TrimIsSpan(t, |w1| + i, |w1| + j);
  }

  // ---------------------------------------------------------------------
  // Validation

  /** validateTrackingNumber accepts exactly the strings made of optional
      whitespace, at least eight ASCII letters or digits, and optional
      whitespace; stated without reference to Trim. */
  lemma {:induction false} ValidateMeaning(s: string)
    ensures ValidateTrackingNumber(s) <==> exists i: nat, j: nat :: PaddedCode(s, i, j)
  {
    var i := LeadingSpace(s);
    var j := i + |Trim(s)|;
    if ValidateTrackingNumber(s) {
      assert forall k :: i <= k < j ==> s[k] == Trim(s)[k - i];
      assert PaddedCode(s, i, j);
    }
    if exists i': nat, j': nat :: PaddedCode(s, i', j') {
      var i': nat, j': nat :| PaddedCode(s, i', j');
      assert IsAsciiAlnum(s[i']) && IsAsciiAlnum(s[j' - 1]);
      TrimIsSpan(s, i', j');
    }
  }

  /** Leading or trailing whitespace never changes the verdict. */
  lemma {:induction false} ValidateIgnoresPadding(w1: string, s: string, w2: string)
    requires AllTrimmable(w1) && AllTrimmable(w2)
    ensures ValidateTrackingNumber(w1 + s + w2) == ValidateTrackingNumber(s)
  {
    TrimIgnoresPadding(w1, s, w2);
  }

  /** Validating the already-trimmed input, as the submit handler does, gives
      the same verdict as validating the raw input. */
  lemma {:induction false} ValidateTrimmed(s: string)
    ensures ValidateTrackingNumber(Trim(s)) == ValidateTrackingNumber(s)
  {
    TrimIdempotent(s);
  }

  /** A five-character input such as "short" is rejected. */
  lemma ShortInputRejected()
    ensures !ValidateTrackingNumber("short")
  {
    TrimIsSpan("short", 0, 5);
  }

  /** A code of at least eight ASCII letters or digits with no whitespace
      around it is accepted as it stands. */
  lemma BareCodeAccepted(s: string)
    requires |s| >= 8 && forall k :: 0 <= k < |s| ==> IsAsciiAlnum(s[k])
    ensures ValidateTrackingNumber(s)
  {
    TrimIsSpan(s, 0, |s|);
  }
}
