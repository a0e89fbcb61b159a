/** Strings as the chat component sees them: JavaScript's `String.prototype.trim`
    (used by the blank-input guard) and the left-to-right concatenation that the
    streaming loop performs with `fullResponse += chunk`. */
module Text {

  /** The characters `trim` removes: ECMAScript WhiteSpace and LineTerminator. */
  predicate IsJsWhitespace(c: char) {
    || c == '\t' || c == '\n' || c == '\U{000B}' || c == '\U{000C}' || c == '\r'
    || c == ' ' || c == '\U{00A0}' || c == '\U{1680}'
    || ('\U{2000}' <= c <= '\U{200A}')
    || c == '\U{2028}' || c == '\U{2029}' || c == '\U{202F}' || c == '\U{205F}'
    || c == '\U{3000}' || c == '\U{FEFF}'
  }

  predicate AllWhitespace(s: string) {
    forall i :: 0 <= i < |s| ==> IsJsWhitespace(s[i])
  }

  /** The first position at or after `i` that does not hold whitespace (or the
      end of `s`). */
  function FirstNonWhitespace(s: string, i: nat): (n: nat)
    requires i <= |s|
    ensures i <= n <= |s|
    ensures forall k :: i <= k < n ==> IsJsWhitespace(s[k])
    ensures n == |s| || !IsJsWhitespace(s[n])
    decreases |s| - i
  {
    if i < |s| && IsJsWhitespace(s[i]) then FirstNonWhitespace(s, i + 1) else i
  }

  /** The end of `s[lo..j]` once its trailing whitespace is dropped. */
  function EndOfNonWhitespace(s: string, lo: nat, j: nat): (n: nat)
    requires lo <= j <= |s|
    ensures lo <= n <= j
    ensures forall k :: n <= k < j ==> IsJsWhitespace(s[k])
    ensures n == lo || !IsJsWhitespace(s[n - 1])
    decreases j - lo
  {
    if lo < j && IsJsWhitespace(s[j - 1]) then EndOfNonWhitespace(s, lo, j - 1) else j
  }

  /** `s.trim()`: whitespace removed at both ends. */
  function Trim(s: string): string {
    var i := FirstNonWhitespace(s, 0);
    s[i..EndOfNonWhitespace(s, i, |s|)]
  }

  /** `trim` returns the slice of `s` between a run of leading and a run of
      trailing whitespace, and that slice neither starts nor ends with whitespace. */
  lemma TrimIsSlice(s: string) returns (i: nat, j: nat)
    ensures i <= j <= |s| && Trim(s) == s[i..j]
    ensures AllWhitespace(s[..i]) && AllWhitespace(s[j..])
    ensures Trim(s) == [] || (!IsJsWhitespace(Trim(s)[0]) && !IsJsWhitespace(Trim(s)[|Trim(s)| - 1]))
  {
    i := FirstNonWhitespace(s, 0);
    j := EndOfNonWhitespace(s, i, |s|);
  }

  /** `!text.trim()`: the trimmed text is the empty string. */
  predicate IsBlank(s: string) {
    Trim(s) == ""
  }

  /** A text is blank exactly when every one of its characters is whitespace. */
  lemma BlankIffAllWhitespace(s: string)
    ensures IsBlank(s) <==> AllWhitespace(s)
  {
    var i := FirstNonWhitespace(s, 0);
    var j := EndOfNonWhitespace(s, i, |s|);
    if IsBlank(s) {
      assert |s[i..j]| == 0;
      assert i == |s|;
    }
  }

  /** A text holding one non-whitespace character is not blank. */
  lemma NotBlankAt(s: string, k: nat)
    requires k < |s| && !IsJsWhitespace(s[k])
    ensures !IsBlank(s)
  {
    BlankIffAllWhitespace(s);
  }

  /** The text accumulated by appending `parts` one after another to "". */
  function Concat(parts: seq<string>): string
  {
    if parts == [] then "" else Concat(parts[..|parts| - 1]) + parts[|parts| - 1]
  }

  /** Accumulating two runs of fragments is accumulating each and joining. */
  lemma {:induction false} ConcatAppend(a: seq<string>, b: seq<string>)
    ensures Concat(a + b) == Concat(a) + Concat(b)
  {
    if b == [] {
      assert a + b == a;
    } else {
      var b' := b[..|b| - 1];
      assert (a + b)[..|a + b| - 1] == a + b';
      ConcatAppend(a, b');
    }
  }

  /** Every intermediate accumulation is a prefix of the final text. */
  lemma ConcatPrefix(parts: seq<string>, k: nat)
    requires k <= |parts|
    ensures Concat(parts[..k]) <= Concat(parts)
  {
    assert parts == parts[..k] + parts[k..];
    ConcatAppend(parts[..k], parts[k..]);
  }

  /** The texts after each fragment, `partials`, are all prefixes of the final text. */
  lemma PartialsArePrefixes(parts: seq<string>, partials: seq<string>)
    requires |partials| == |parts|
    requires forall k :: 0 <= k < |parts| ==> partials[k] == Concat(parts[..k + 1])
    ensures forall k :: 0 <= k < |partials| ==> partials[k] <= Concat(parts)
  {
    forall k | 0 <= k < |partials|
      ensures partials[k] <= Concat(parts)
    {
      ConcatPrefix(parts, k + 1);
    }
  }

  /** One more fragment extends the accumulation by exactly that fragment. */
  lemma ConcatStep(parts: seq<string>, k: nat)
    requires k < |parts|
    ensures Concat(parts[..k + 1]) == Concat(parts[..k]) + parts[k]
  {
    assert parts[..k + 1][..k] == parts[..k];
  }
}
