// The input sanitiser of Day_12/src/app/custom-directive.ts: on every
// input event the field's value is replaced by the value with every
// character other than an ASCII letter or a whitespace character removed
// (`value.replace(/[^a-zA-Z\s]/g, '')`).
module CustomDirective {
  import opened Seqs

  predicate IsAsciiLetter(c: char)
  {
    'a' <= c <= 'z' || 'A' <= c <= 'Z'
  }

  /** The characters the regular-expression class `\s` matches in JavaScript. */
  predicate IsWhitespace(c: char)
  {
    || c == ' ' || c == '\t' || c == '\n' || c == '\r'
    || c == '\U{000B}' || c == '\U{000C}' || c == '\U{00A0}' || c == '\U{1680}'
    || ('\U{2000}' <= c <= '\U{200A}')
    || c == '\U{2028}' || c == '\U{2029}' || c == '\U{202F}' || c == '\U{205F}'
    || c == '\U{3000}' || c == '\U{FEFF}'
  }

  /** A character the sanitiser keeps: one not matched by `[^a-zA-Z\s]`. */
  predicate Allowed(c: char)
  {
    IsAsciiLetter(c) || IsWhitespace(c)
  }

  /** The global replace: every disallowed character deleted. */
  function Sanitize(s: string): (r: string)
    ensures |r| <= |s|
    ensures forall k :: 0 <= k < |r| ==> Allowed(r[k])
  {
    if s == [] then []
    else (if Allowed(s[0]) then [s[0]] else []) + Sanitize(s[1..])
  }

  /** The output is the input with some characters deleted, order preserved. */
  lemma {:induction false} SanitizeIsSubsequence(s: string)
    ensures IsSubsequence(Sanitize(s), s)
  {
    if s != [] {
      SanitizeIsSubsequence(s[1..]);
      if Allowed(s[0]) {
        assert Sanitize(s) == [s[0]] + Sanitize(s[1..]);
        assert Sanitize(s)[1..] == Sanitize(s[1..]);
      } else {
        assert Sanitize(s) == Sanitize(s[1..]);
        if Sanitize(s) != [] {
          assert Allowed(Sanitize(s)[0]);
        }
      }
    }
  }

  /**
   * Exactly the disallowed characters are deleted: each allowed character
   * occurs as often in the output as in the input, each other one not at all.
   */
  lemma {:induction false} SanitizeCounts(s: string, c: char)
    ensures multiset(Sanitize(s))[c] == if Allowed(c) then multiset(s)[c] else 0
  {
    if s != [] {
      SanitizeCounts(s[1..], c);
      assert s == [s[0]] + s[1..];
      assert multiset(s) == multiset([s[0]]) + multiset(s[1..]);
      var head: string := if Allowed(s[0]) then [s[0]] else [];
      assert multiset(Sanitize(s)) == multiset(head) + multiset(Sanitize(s[1..]));
    }
  }

  /** Input made only of letters and whitespace comes back unchanged. */
  lemma {:induction false} SanitizeKeepsClean(s: string)
    requires forall k :: 0 <= k < |s| ==> Allowed(s[k])
    ensures Sanitize(s) == s
  {
    if s != [] {
      assert forall k :: 0 <= k < |s[1..]| ==> s[1..][k] == s[k + 1];
      SanitizeKeepsClean(s[1..]);
      assert s == [s[0]] + s[1..];
    }
  }

  /** Sanitising twice is sanitising once. */
  lemma SanitizeIdempotent(s: string)
    ensures Sanitize(Sanitize(s)) == Sanitize(s)
  {
    SanitizeKeepsClean(Sanitize(s));
  }

  /** The text field the directive is attached to. */
  class InputElement {
    var value: string

    constructor (value: string)
      ensures this.value == value
    {
      this.value := value;
    }
  }

  /** appCustomDirective: its input listener rewrites the field's value in place. */
  class AppCustomDirective {
    constructor ()
    {
    }

    /** `onInput`: assign the sanitised value back to the field. */
    method OnInput(input: InputElement)
      modifies input
      ensures input.value == Sanitize(old(input.value))
    {
      input.value := Sanitize(input.value);
    }
  }
}
