/** The two Python string primitives the pipeline relies on, `str.lower`
    and `str.strip`, and the open-ended slice `s[n:]`, over `seq<char>`.

    `IsSpace` is Python's whitespace class exactly (the characters for which
    `str.isspace()` holds); `Lower` folds ASCII letters only. */
module Text {

  /** Python's whitespace: the characters `str.strip()` removes when it is
      given no argument. */
  predicate IsSpace(c: char) {
    || ('\t' <= c <= '\r')
    || ('\U{1C}' <= c <= '\U{1F}')
    || c == ' '
    || c == '\U{85}'
    || c == '\U{A0}'
    || c == '\U{1680}'
    || ('\U{2000}' <= c <= '\U{200A}')
    || c == '\U{2028}'
    || c == '\U{2029}'
    || c == '\U{202F}'
    || c == '\U{205F}'
    || c == '\U{3000}'
  }

  predicate AllSpace(s: string) {
    forall i :: 0 <= i < |s| ==> IsSpace(s[i])
  }

  /** Neither the first nor the last character is whitespace. */
  predicate NoEdgeSpace(s: string) {
    |s| > 0 ==> !IsSpace(s[0]) && !IsSpace(s[|s| - 1])
  }

  /** `s` is `r` with whitespace padding: `lead` whitespace characters
      before it and only whitespace after it. */
  ghost predicate Padded(s: string, lead: nat, r: string) {
    && lead + |r| <= |s|
    && s[lead..lead + |r|] == r
    && AllSpace(s[..lead])
    && AllSpace(s[lead + |r|..])
  }

  predicate IsAsciiUpper(c: char) {
    'A' <= c <= 'Z'
  }

  function LowerChar(c: char): char {
    if IsAsciiUpper(c) then (c as int + 32) as char else c
  }

  /** `str.lower`, restricted to the ASCII letters. */
  function Lower(s: string): (r: string)
    ensures |r| == |s|
    ensures forall i :: 0 <= i < |s| ==> r[i] == LowerChar(s[i])
    ensures forall i :: 0 <= i < |r| ==> !IsAsciiUpper(r[i])
  {
    if |s| == 0 then [] else [LowerChar(s[0])] + Lower(s[1..])
  }

  /** Lowercasing twice is lowercasing once. */
  lemma LowerIdempotent(s: string)
    ensures Lower(Lower(s)) == Lower(s)
  {
  }

  /** Number of whitespace characters at the start of `s`. */
  function LeadingSpace(s: string): (n: nat)
    ensures n <= |s|
    ensures forall i :: 0 <= i < n ==> IsSpace(s[i])
    ensures n < |s| ==> !IsSpace(s[n])
  {
    if |s| == 0 || !IsSpace(s[0]) then 0 else 1 + LeadingSpace(s[1..])
  }

  /** Number of whitespace characters at the end of `s`. */
  function TrailingSpace(s: string): (n: nat)
    ensures n <= |s|
    ensures forall i :: |s| - n <= i < |s| ==> IsSpace(s[i])
    ensures n < |s| ==> !IsSpace(s[|s| - 1 - n])
  {
    if |s| == 0 || !IsSpace(s[|s| - 1]) then 0 else 1 + TrailingSpace(s[..|s| - 1])
  }

  /** `str.strip()` with no argument. */
  function Strip(s: string): (r: string)
    ensures NoEdgeSpace(r)
    ensures exists lead :: Padded(s, lead, r)
  {
    var lead := LeadingSpace(s);
    var rest := s[lead..];
    var trail := TrailingSpace(rest);
    var r := rest[..|rest| - trail];
    assert |rest| > 0 ==> !IsSpace(rest[0]);
    assert Padded(s, lead, r) by {
      assert s[lead..lead + |r|] == r;
      assert s[lead + |r|..] == rest[|rest| - trail..];
    }
    r
  }

  /** A leading-whitespace count is determined by the first non-whitespace
      character. */
  lemma LeadingSpaceAt(s: string, k: nat)
    requires k <= |s|
    requires AllSpace(s[..k])
    requires k < |s| ==> !IsSpace(s[k])
    ensures LeadingSpace(s) == k
  {
  }

  lemma TrailingSpaceAt(s: string, k: nat)
    requires k <= |s|
    requires AllSpace(s[|s| - k..])
    requires k < |s| ==> !IsSpace(s[|s| - 1 - k])
    ensures TrailingSpace(s) == k
  {
  }

  /** Reference characterisation of `Strip`: stripping whitespace padding
      off a string with no whitespace at its edges gives that string back.
      With the `Padded` guarantee of `Strip` this makes the stripped string
      the unique edge-trimmed core of its input. */
  lemma StripPadded(w1: string, r: string, w2: string)
    requires AllSpace(w1) && AllSpace(w2) && NoEdgeSpace(r)
    ensures Strip(w1 + r + w2) == r
  {
    var s := w1 + r + w2;
    if |r| == 0 {
      assert s == w1 + w2;
      LeadingSpaceAt(s, |s|);
      assert s[|s|..] == [];
    } else {
      assert s[..|w1|] == w1;
      assert s[|w1|] == r[0];
      LeadingSpaceAt(s, |w1|);
      var rest := s[|w1|..];
      assert rest == r + w2;
      assert rest[|rest| - |w2|..] == w2;
      assert rest[|rest| - 1 - |w2|] == r[|r| - 1];
      TrailingSpaceAt(rest, |w2|);
      assert rest[..|rest| - |w2|] == r;
    }
  }

  /** The other direction: a string with no whitespace at its edges that
      the input is padded around is the input's strip, so `NoEdgeSpace` and
      `Padded` together determine a strip uniquely. */
  lemma PaddedCoreIsStrip(s: string, lead: nat, r: string)
    requires Padded(s, lead, r) && NoEdgeSpace(r)
    ensures Strip(s) == r
  {
    assert s == s[..lead] + r + s[lead + |r|..];
    StripPadded(s[..lead], r, s[lead + |r|..]);
  }

  /** Stripping is idempotent. */
  lemma StripIdempotent(s: string)
    ensures Strip(Strip(s)) == Strip(s)
  {
  }

  /** A string made only of whitespace strips to the empty string. */
  lemma StripAllSpace(s: string)
    requires AllSpace(s)
    ensures Strip(s) == []
  {
  }

  /** Python's open-ended slice `s[n:]` for a non-negative `n`: an index
      past the end yields the empty string rather than an error. */
  function SliceFrom(s: string, n: nat): (r: string)
    ensures |r| == if n <= |s| then |s| - n else 0
    ensures forall i :: 0 <= i < |r| ==> r[i] == s[n + i]
  {
    if n <= |s| then s[n..] else []
  }

  /** Slicing a concatenation at the length of its first part yields the
      second part. */
  lemma SliceFromConcat(p: string, c: string)
    ensures SliceFrom(p + c, |p|) == c
  {
  }
}
