/** The few Python string operations the core relies on: `str.upper` on key
    names, `str.strip` on scene names, and `str.split(sep)[i]` on widget texts
    and scene ids. */
module Text {

  /** `str.upper` on one character; only ASCII letters are mapped. */
  function UpperChar(c: char): char {
    if 'a' <= c <= 'z' then (c as int - 32) as char else c
  }

  predicate IsLowerChar(c: char) {
    'a' <= c <= 'z'
  }

  /** `str.upper`, as applied to every key name coming from the keyboard hook. */
  function Upper(s: string): (r: string)
    ensures |r| == |s|
    ensures forall i :: 0 <= i < |s| ==> r[i] == UpperChar(s[i])
  {
    if s == [] then [] else [UpperChar(s[0])] + Upper(s[1..])
  }

  /** A key name that `Upper` leaves alone. */
  predicate IsUpper(s: string) {
    forall i :: 0 <= i < |s| ==> !IsLowerChar(s[i])
  }

  lemma UpperIsUpper(s: string)
    ensures IsUpper(Upper(s))
    ensures IsUpper(s) ==> Upper(s) == s
  {
  }

  /** Normalising a key name twice is normalising it once. */
  lemma UpperIdempotent(s: string)
    ensures Upper(Upper(s)) == Upper(s)
  {
    UpperIsUpper(s);
    UpperIsUpper(Upper(s));
  }

  /** The characters Python's `str.strip()` removes (those for which `str.isspace` holds). */
  predicate IsSpace(c: char) {
    || c == ' ' || '\t' <= c <= '\r' || '\U{1C}' <= c <= '\U{1F}'
    || c == '\U{85}' || c == '\U{A0}' || c == '\U{1680}' || '\U{2000}' <= c <= '\U{200A}'
    || c == '\U{2028}' || c == '\U{2029}' || c == '\U{202F}' || c == '\U{205F}' || c == '\U{3000}'
  }

  /** Drops the leading white space of `s`. */
  function TrimStart(s: string): (r: string)
    ensures |r| <= |s| && r == s[|s| - |r|..]
    ensures forall i :: 0 <= i < |s| - |r| ==> IsSpace(s[i])
    ensures r != [] ==> !IsSpace(r[0])
  {
    if s != [] && IsSpace(s[0]) then TrimStart(s[1..]) else s
  }

  /** Drops the trailing white space of `s`. */
  function TrimEnd(s: string): (r: string)
    ensures |r| <= |s| && r == s[..|r|]
    ensures forall i :: |r| <= i < |s| ==> IsSpace(s[i])
    ensures r != [] ==> !IsSpace(r[|r| - 1])
  {
    if s != [] && IsSpace(s[|s| - 1]) then TrimEnd(s[..|s| - 1]) else s
  }

  /** `str.strip()`. */
  function Strip(s: string): (r: string)
  {
    TrimEnd(TrimStart(s))
  }

  /** The stripped text is empty exactly when the input is all white space, and
      otherwise it starts and ends with a character that is not white space. */
  lemma StripEmptyIffBlank(s: string)
    ensures Strip(s) == [] <==> forall i :: 0 <= i < |s| ==> IsSpace(s[i])
    ensures Strip(s) != [] ==> !IsSpace(Strip(s)[0]) && !IsSpace(Strip(s)[|Strip(s)| - 1])
  {
    var t := TrimStart(s);
    if t != [] {
      assert t[0] == s[|s| - |t|];
    }
  }

  /** `s.split(c)[0]`: the text before the first `c`, or all of `s`. */
  function Before(s: string, c: char): (r: string)
    ensures |r| <= |s| && r == s[..|r|]
    ensures c !in r
  {
    if s == [] || s[0] == c then [] else [s[0]] + Before(s[1..], c)
  }

  /** The text after the first `c`; empty when `c` does not occur. */
  function After(s: string, c: char): (r: string)
    ensures |r| <= |s|
  {
    if s == [] then [] else if s[0] == c then s[1..] else After(s[1..], c)
  }

  /** `Before` returns a text that does not contain the separator unchanged, and
      stops at the separator otherwise. */
  lemma {:induction false} BeforeOf(p: string, c: char, q: string)
    requires c !in p
    ensures Before(p, c) == p
    ensures Before(p + [c] + q, c) == p
  {
    if p != [] {
      BeforeOf(p[1..], c, q);
      assert (p + [c] + q)[1..] == p[1..] + [c] + q;
    }
  }

  /** `After` skips past the first separator. */
  lemma {:induction false} AfterOf(p: string, c: char, q: string)
    requires c !in p
    ensures After(p + [c] + q, c) == q
  {
    if p != [] {
      AfterOf(p[1..], c, q);
      assert (p + [c] + q)[1..] == p[1..] + [c] + q;
    } else {
      assert (p + [c] + q) == [c] + q;
    }
  }
}
