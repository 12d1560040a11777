/** The parts of Go's `strings` package, and of its byte/string conversions,
    that the adapter relies on. A Go string is modelled as a sequence of
    characters; where Go converts raw bytes to a string, each byte becomes the
    character with the same code, so that no decoding takes place. */
module GoText {

  type Byte = b: int | 0 <= b < 256

  /** Go's `unicode.IsSpace`: the Latin-1 spaces and the other characters of
      Unicode's White_Space property. */
  predicate IsSpace(c: char) {
    || c == ' ' || c == '\t' || c == '\n' || c == '\r'
    || c == '\U{000B}' || c == '\U{000C}' || c == '\U{0085}' || c == '\U{00A0}'
    || c == '\U{1680}' || ('\U{2000}' <= c <= '\U{200A}')
    || c == '\U{2028}' || c == '\U{2029}' || c == '\U{202F}' || c == '\U{205F}'
    || c == '\U{3000}'
  }

  /** Number of space characters at the start of `s`. */
  function LeadingSpaces(s: string): (n: nat)
    ensures n <= |s|
    ensures forall k :: 0 <= k < n ==> IsSpace(s[k])
    ensures n < |s| ==> !IsSpace(s[n])
  {
    if s == [] || !IsSpace(s[0]) then 0 else 1 + LeadingSpaces(s[1..])
  }

  /** Length of `s` without its trailing space characters. */
  function WithoutTrailingSpaces(s: string): (n: nat)
    ensures n <= |s|
    ensures forall k :: n <= k < |s| ==> IsSpace(s[k])
    ensures n > 0 ==> !IsSpace(s[n - 1])
  {
    if s == [] || !IsSpace(s[|s| - 1]) then |s| else WithoutTrailingSpaces(s[..|s| - 1])
  }

  /** `strings.TrimSpace`: `s` without its leading and trailing spaces. */
  function TrimSpace(s: string): string {
    var rest := s[LeadingSpaces(s)..];
    rest[..WithoutTrailingSpaces(rest)]
  }

  /** What `TrimSpace` leaves is a slice of `s` that neither starts nor
      ends with a space, and every character of `s` outside it is a space. */
  lemma TrimSpaceShape(s: string)
    ensures var r := TrimSpace(s);
      && (r == [] || (!IsSpace(r[0]) && !IsSpace(r[|r| - 1])))
      && LeadingSpaces(s) + |r| <= |s|
      && r == s[LeadingSpaces(s)..LeadingSpaces(s) + |r|]
      && forall k :: 0 <= k < |s| && !(LeadingSpaces(s) <= k < LeadingSpaces(s) + |r|) ==> IsSpace(s[k])
  {
    var n := LeadingSpaces(s);
    var rest := s[n..];
    var m := WithoutTrailingSpaces(rest);
    var r := rest[..m];
    assert r == s[n..n + m];
    forall k | n + m <= k < |s|
      ensures IsSpace(s[k])
    {
      assert s[k] == rest[k - n];
    }
  }

  /** `strings.HasPrefix`. */
  predicate HasPrefix(s: string, prefix: string) {
    prefix <= s
  }

  /** `strings.TrimPrefix`: `s` without `prefix` when it starts with it,
      `s` itself otherwise. */
  function TrimPrefix(s: string, prefix: string): (r: string)
    ensures HasPrefix(s, prefix) ==> prefix + r == s
    ensures !HasPrefix(s, prefix) ==> r == s
  {
    if HasPrefix(s, prefix) then s[|prefix|..] else s
  }

  /** `strings.Contains`, searching from the left. */
  predicate Contains(s: string, sub: string)
    decreases |s|
  {
    sub <= s || (s != [] && Contains(s[1..], sub))
  }

  /** `sub` is contained in `s` exactly when it occurs at some position. */
  lemma {:induction false} ContainsMeans(s: string, sub: string)
    ensures Contains(s, sub) <==> exists i :: 0 <= i <= |s| && sub <= s[i..]
    decreases |s|
  {
    if sub <= s {
      assert sub <= s[0..];
    } else if s != [] {
      ContainsMeans(s[1..], sub);
      assert forall i :: 1 <= i <= |s| ==> s[i..] == s[1..][i - 1..];
      if exists i :: 0 <= i <= |s| && sub <= s[i..] {
        var i :| 0 <= i <= |s| && sub <= s[i..];
        assert i != 0;
        assert sub <= s[1..][i - 1..];
      }
    }
  }

  /** Go's `string(b)` for a byte slice: one character per byte, unchanged. */
  function BytesToString(b: seq<Byte>): (s: string)
    ensures |s| == |b|
    ensures forall k :: 0 <= k < |b| ==> s[k] as int == b[k]
  {
    seq(|b|, k requires 0 <= k < |b| => b[k] as char)
  }

  /** The bytes of a string whose characters all have codes below 256
      (Go's `[]byte(s)` for such a string). */
  function StringToBytes(s: string): (b: seq<Byte>)
    requires forall k :: 0 <= k < |s| ==> s[k] as int < 256
    ensures |b| == |s|
    ensures BytesToString(b) == s
  {
    seq(|s|, k requires 0 <= k < |s| => s[k] as int)
  }

  /** Converting bytes to a string loses nothing: the bytes come back. */
  lemma BytesToStringRoundTrip(b: seq<Byte>)
    ensures forall k :: 0 <= k < |b| ==> BytesToString(b)[k] as int < 256
    ensures StringToBytes(BytesToString(b)) == b
  {
  }
}
