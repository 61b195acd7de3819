/** The few `str` operations of Python that the handlers use, over `seq<char>`. */
module PyText {

  /** The characters for which `str.isspace()` holds, which `str.strip()`
      removes when called without arguments. */
  const Whitespace: set<char> := {
    '\t', '\n', '\U{0B}', '\U{0C}', '\r', '\U{1C}', '\U{1D}', '\U{1E}', '\U{1F}', ' ',
    '\U{85}', '\U{A0}', '\U{1680}',
    '\U{2000}', '\U{2001}', '\U{2002}', '\U{2003}', '\U{2004}', '\U{2005}',
    '\U{2006}', '\U{2007}', '\U{2008}', '\U{2009}', '\U{200A}',
    '\U{2028}', '\U{2029}', '\U{202F}', '\U{205F}', '\U{3000}'
  }

  predicate IsSpace(c: char)
  {
    c in Whitespace
  }

  predicate AllSpace(s: string)
  {
    forall k :: 0 <= k < |s| ==> IsSpace(s[k])
  }

  /** How many whitespace characters `s.lstrip()` removes from the front. */
  function LeadingSpace(s: string): (n: nat)
    ensures n <= |s|
    ensures forall k :: 0 <= k < n ==> IsSpace(s[k])
    ensures n < |s| ==> !IsSpace(s[n])
  {
    if s != [] && IsSpace(s[0]) then 1 + LeadingSpace(s[1..]) else 0
  }

  /** Where the run of whitespace that `s.rstrip()` removes from the back
      begins. */
  function TrailingSpace(s: string): (n: nat)
    ensures n <= |s|
    ensures forall k :: n <= k < |s| ==> IsSpace(s[k])
    ensures 0 < n ==> !IsSpace(s[n - 1])
  {
    if s != [] && IsSpace(s[|s| - 1]) then TrailingSpace(s[..|s| - 1]) else |s|
  }

  /** `s.strip()`: `lstrip`, then `rstrip`. */
  function Strip(s: string): (r: string)
    ensures |r| <= |s| - LeadingSpace(s) && r == s[LeadingSpace(s)..LeadingSpace(s) + |r|]
    ensures r != [] ==> !IsSpace(r[0]) && !IsSpace(r[|r| - 1])
  {
    var t := s[LeadingSpace(s)..];
    t[..TrailingSpace(t)]
  }

  /** `s.startswith(p)`. */
  predicate StartsWith(s: string, p: string)
  {
    p <= s
  }

  /** `s.removeprefix(p)`. */
  function RemovePrefix(s: string, p: string): (r: string)
    ensures StartsWith(s, p) ==> p + r == s
    ensures !StartsWith(s, p) ==> r == s
  {
    if StartsWith(s, p) then s[|p|..] else s
  }

  /** `s[i..j]` is what is left of `s` once a blank head `s[..i]` and a blank
      tail `s[j..]` are cut off. */
  predicate BlankOutside(s: string, i: int, j: int)
  {
    && 0 <= i <= j <= |s|
    && (forall k :: 0 <= k < i ==> IsSpace(s[k]))
    && (forall k :: j <= k < |s| ==> IsSpace(s[k]))
  }

  /** What `strip()` returns: the part of `s` between a leading and a trailing
      run of whitespace. */
  lemma StripIsTrimmedInfix(s: string)
    ensures var i := LeadingSpace(s);
            BlankOutside(s, i, i + |Strip(s)|) && Strip(s) == s[i..i + |Strip(s)|]
  {
    var i := LeadingSpace(s);
    var t := s[i..];
    var j := TrailingSpace(t);
    assert Strip(s) == s[i..i + j];
    assert forall k :: i + j <= k < |s| ==> s[k] == t[k - i];
  }

  /** A text strips to nothing exactly when it is blank. */
  lemma StripEmptyIffBlank(s: string)
    ensures Strip(s) == [] <==> AllSpace(s)
  {
    var i := LeadingSpace(s);
    var t := s[i..];
    assert i < |s| ==> t[0] == s[i];
  }

  /** Stripping twice is stripping once. */
  lemma StripIdempotent(s: string)
    ensures Strip(Strip(s)) == Strip(s)
  {
    var r := Strip(s);
    StripIsTrimmedInfix(s);
    if r != [] {
      assert LeadingSpace(r) == 0;
      assert TrailingSpace(r) == |r|;
      assert r[0..] == r && r[..|r|] == r;
    }
  }
}
