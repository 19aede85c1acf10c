/**
  The Python string operations the bridge relies on: decimal rendering of int,
  `sep.join`, the `in` substring test, `str.split(sep)` and `str.strip()`.
*/
module Text {

  function Digit(d: nat): char
    requires d < 10
  {
    "0123456789"[d]
  }

  function NatToString(n: nat): (r: string)
    ensures |r| > 0
    decreases n
  {
    if n < 10 then [Digit(n)] else NatToString(n / 10) + [Digit(n % 10)]
  }

  /** str(i) for a Python int. */
  function IntToString(i: int): string {
    if i < 0 then "-" + NatToString(-i) else NatToString(i)
  }

  /** sep.join(parts) */
  function Join(sep: string, parts: seq<string>): string {
    if |parts| == 0 then ""
    else if |parts| == 1 then parts[0]
    else parts[0] + sep + Join(sep, parts[1..])
  }

  /** `sub` occurs in `s` starting at index k. */
  predicate OccursAt(s: string, sub: string, k: int) {
    0 <= k && k + |sub| <= |s| && s[k..k + |sub|] == sub
  }

  lemma OccursInTail(s: string, sub: string, k: int)
    requires |s| > 0 && 0 <= k
    ensures OccursAt(s[1..], sub, k) <==> OccursAt(s, sub, k + 1)
  {
    if 0 <= k && k + |sub| <= |s| - 1 {
      assert s[1..][k..k + |sub|] == s[k + 1..k + 1 + |sub|];
    }
  }

  /** The index of the first occurrence of `sub` in `s` (str.find), or -1. */
  function Find(s: string, sub: string): (k: int)
    ensures k == -1 || OccursAt(s, sub, k)
    ensures k == -1 ==> forall j :: !OccursAt(s, sub, j)
    ensures k >= 0 ==> forall j :: 0 <= j < k ==> !OccursAt(s, sub, j)
    decreases |s|
  {
    if |s| < |sub| then -1
    else if s[..|sub|] == sub then 0
    else
      var r := Find(s[1..], sub);
      assert forall j :: OccursAt(s[1..], sub, j - 1) <==> OccursAt(s, sub, j) by {
        forall j ensures OccursAt(s[1..], sub, j - 1) <==> OccursAt(s, sub, j) {
          if j >= 1 { OccursInTail(s, sub, j - 1); }
        }
      }
      if r < 0 then -1 else r + 1
  }

  /** `sub in s` for two strings. */
  predicate Contains(s: string, sub: string) {
    Find(s, sub) >= 0
  }

  /** The first occurrence is at k when sub occurs there and nowhere before. */
  lemma {:induction false} FindIs(s: string, sub: string, k: int)
    requires OccursAt(s, sub, k)
    requires forall j :: 0 <= j < k ==> !OccursAt(s, sub, j)
    ensures Find(s, sub) == k
  {
  }

  /** When sub does not start before k, it does not occur in s[..k] at all. */
  lemma NoneInPrefix(s: string, sub: string, k: int)
    requires |sub| > 0 && 0 <= k <= |s|
    requires forall j :: 0 <= j < k ==> !OccursAt(s, sub, j)
    ensures forall j :: !OccursAt(s[..k], sub, j)
  {
    forall j | 0 <= j && j + |sub| <= k ensures !OccursAt(s[..k], sub, j) {
      assert j < k && !OccursAt(s, sub, j);
      assert s[..k][j..j + |sub|] == s[j..j + |sub|];
    }
  }

  /** s.split(sep): the pieces between the non-overlapping occurrences of sep, left to right. */
  function Split(s: string, sep: string): (parts: seq<string>)
    requires |sep| > 0
    ensures |parts| >= 1
    ensures Join(sep, parts) == s
    ensures forall i :: 0 <= i < |parts| ==> !Contains(parts[i], sep)
    decreases |s|
  {
    var k := Find(s, sep);
    if k < 0 then [s]
    else
      var rest := Split(s[k + |sep|..], sep);
      NoneInPrefix(s, sep, k);
      assert s == s[..k] + sep + s[k + |sep|..];
      [s[..k]] + rest
  }

  /** The characters str.isspace() accepts. */
  predicate IsSpace(c: char) {
    var n := c as int;
    (9 <= n <= 13) || (28 <= n <= 32) || n == 0x85 || n == 0xA0 || n == 0x1680
    || (0x2000 <= n <= 0x200A) || n == 0x2028 || n == 0x2029 || n == 0x202F
    || n == 0x205F || n == 0x3000
  }

  function StripLeft(s: string): (r: string)
    ensures |r| <= |s| && r == s[|s| - |r|..]
    ensures |r| > 0 ==> !IsSpace(r[0])
  {
    if |s| > 0 && IsSpace(s[0]) then StripLeft(s[1..]) else s
  }

  function StripRight(s: string): (r: string)
    ensures |r| <= |s| && r == s[..|r|]
    ensures |r| > 0 ==> !IsSpace(r[|r| - 1])
  {
    if |s| > 0 && IsSpace(s[|s| - 1]) then StripRight(s[..|s| - 1]) else s
  }

  /** s.strip(): s without its leading and trailing whitespace. */
  function Strip(s: string): (r: string)
    ensures |r| > 0 ==> !IsSpace(r[0]) && !IsSpace(r[|r| - 1])
  {
    StripRight(StripLeft(s))
  }
}
