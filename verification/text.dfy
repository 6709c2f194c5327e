/** Whitespace trimming as Python's `str.strip()` with no argument performs it:
    leading and trailing characters for which `str.isspace()` holds are removed. */
module Text {

  /** Python's `str.isspace()` on one code point: the ASCII controls TAB..CR and
      FS..US, SPACE, NEL, NO-BREAK SPACE and the Unicode space separators and
      line/paragraph separators. */
  predicate IsSpace(c: char) {
    var n := c as int;
    || 0x09 <= n <= 0x0D
    || 0x1C <= n <= 0x20
    || n == 0x85
    || n == 0xA0
    || n == 0x1680
    || 0x2000 <= n <= 0x200A
    || n == 0x2028
    || n == 0x2029
    || n == 0x202F
    || n == 0x205F
    || n == 0x3000
  }

  predicate AllSpace(s: string) {
    forall i :: 0 <= i < |s| ==> IsSpace(s[i])
  }

  /** Neither end of `s` is whitespace. */
  predicate IsTrimmed(s: string) {
    s == [] || (!IsSpace(s[0]) && !IsSpace(s[|s| - 1]))
  }

  /** Length of the whitespace run at the start of `s`. */
  function LeadingSpace(s: string): (k: nat)
    ensures k <= |s|
    ensures AllSpace(s[..k])
    ensures k < |s| ==> !IsSpace(s[k])
    decreases |s|
  {
    if |s| == 0 || !IsSpace(s[0]) then 0
    else
      var k := 1 + LeadingSpace(s[1..]);
      assert s[..k] == [s[0]] + s[1..][..k - 1];
      k
  }

  /** Length of the whitespace run at the end of `s`. */
  function TrailingSpace(s: string): (k: nat)
    ensures k <= |s|
    ensures AllSpace(s[|s| - k..])
    ensures k < |s| ==> !IsSpace(s[|s| - 1 - k])
    decreases |s|
  {
    if |s| == 0 || !IsSpace(s[|s| - 1]) then 0
    else
      var init := s[..|s| - 1];
      var k := 1 + TrailingSpace(init);
      assert s[|s| - k..] == init[|init| - (k - 1)..] + [s[|s| - 1]];
      k
  }

  /** Python's `s.strip()`. */
  function Strip(s: string): (r: string)
    ensures IsTrimmed(r)
    ensures r == [] <==> AllSpace(s)
    ensures LeadingSpace(s) + |r| <= |s|
    ensures s == s[..LeadingSpace(s)] + r + s[LeadingSpace(s) + |r|..]
    ensures AllSpace(s[LeadingSpace(s) + |r|..])
  {
    var a := LeadingSpace(s);
    var t := s[a..];
    var k := TrailingSpace(t);
    assert t[|t| - k..] == s[|s| - k..];
    assert k < |t| ==> t[|t| - 1 - k] == s[|s| - 1 - k];
    assert t[..|t| - k] == s[a..|s| - k];
    StripShape(s, a, k);
    s[a..|s| - k]
  }

  /** What the two whitespace runs of `s` leave between them is trimmed, and
      empty exactly when `s` is all whitespace. */
  lemma StripShape(s: string, a: nat, k: nat)
    requires a + k <= |s|
    requires AllSpace(s[..a]) && (a < |s| ==> !IsSpace(s[a]))
    requires AllSpace(s[|s| - k..]) && (a + k < |s| ==> !IsSpace(s[|s| - 1 - k]))
    ensures IsTrimmed(s[a..|s| - k])
    ensures s[a..|s| - k] == [] <==> AllSpace(s)
    ensures s == s[..a] + s[a..|s| - k] + s[|s| - k..]
  {
  }

  /** `strip` undoes exactly the padding around a trimmed string: whatever
      whitespace surrounds `r`, stripping gives back `r`. */
  lemma {:induction false} StripOfPadded(p: string, r: string, q: string)
    requires AllSpace(p) && AllSpace(q) && IsTrimmed(r)
    ensures Strip(p + r + q) == r
  {
    var s := p + r + q;
    var a := LeadingSpace(s);
    var out := Strip(s);
    if r == [] {
      assert AllSpace(s) by {
        forall i | 0 <= i < |s| ensures IsSpace(s[i]) {
          if i < |p| { assert s[i] == p[i]; } else { assert s[i] == q[i - |p|]; }
        }
      }
    } else {
      // The leading run is exactly `p`: every character of `p` is a space and `r[0]` is not.
      assert s[|p|] == r[0];
      assert forall i :: 0 <= i < |p| ==> s[i] == p[i];
      assert a == |p|;
      // The stripped text ends exactly where `r` does: `q` is all spaces and `r`'s last character is not.
      var e := a + |out|;
      assert s[|p| + |r| - 1] == r[|r| - 1];
      assert forall i :: |p| + |r| <= i < |s| ==> s[i] == q[i - |p| - |r|];
      assert s[e..] == s[a + |out|..];
      assert out == s[a..e];
      assert e == |p| + |r|;
      assert s[a..e] == r;
    }
  }

  /** Stripping twice is stripping once. */
  lemma StripIdempotent(s: string)
    ensures Strip(Strip(s)) == Strip(s)
  {
  }

  /** Python's `sep.join(parts)`. */
  function Join(sep: string, parts: seq<string>): string
    decreases |parts|
  {
    if |parts| == 0 then ""
    else if |parts| == 1 then parts[0]
    else parts[0] + sep + Join(sep, parts[1..])
  }
}
