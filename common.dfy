/** Small helpers shared by the storefront model: an optional value, and the
    two string operations the handlers rely on (Python's `sub in s` test and
    the decimal rendering of an integer inside an f-string). */
module Common {

  datatype Option<+T> = None | Some(value: T)

  /** `sub` occurs in `s` starting at position `i`. */
  predicate WindowAt(s: string, sub: string, i: int)
  {
    0 <= i <= |s| - |sub| && s[i..i + |sub|] == sub
  }

  /** Python's `sub in s` for strings: some window of `s` equals `sub`. */
  function Contains(s: string, sub: string): (r: bool)
    ensures r <==> exists i :: WindowAt(s, sub, i)
    decreases |s|
  {
    if |sub| > |s| then false
    else if s[..|sub|] == sub then assert WindowAt(s, sub, 0); true
    else
      WindowShift(s, sub);
      Contains(s[1..], sub)
  }

  /** When `sub` is not a prefix of `s`, it occurs in `s` exactly when it occurs in `s[1..]`. */
  lemma WindowShift(s: string, sub: string)
    requires |sub| <= |s| && s[..|sub|] != sub
    ensures (exists i :: WindowAt(s, sub, i)) <==> (exists i :: WindowAt(s[1..], sub, i))
  {
    if exists i :: WindowAt(s, sub, i) {
      var i :| WindowAt(s, sub, i);
      assert i > 0;
      assert s[1..][i - 1..i - 1 + |sub|] == s[i..i + |sub|];
      assert WindowAt(s[1..], sub, i - 1);
    }
    if exists i :: WindowAt(s[1..], sub, i) {
      var i :| WindowAt(s[1..], sub, i);
      assert s[i + 1..i + 1 + |sub|] == s[1..][i..i + |sub|];
      assert WindowAt(s, sub, i + 1);
    }
  }

  /** The number a string of decimal digits denotes, most significant first. */
  function DigitsValue(s: string): int
  {
    if s == [] then 0
    else DigitsValue(s[..|s| - 1]) * 10 + (s[|s| - 1] as int - '0' as int)
  }

  /** Decimal digits of a natural number, as `str(n)` renders it: digits
      only, no leading zero, and denoting `n`. */
  function NatToString(n: nat): (r: string)
    ensures |r| >= 1
    ensures forall k :: 0 <= k < |r| ==> '0' <= r[k] <= '9'
    ensures |r| > 1 ==> r[0] != '0'
    ensures DigitsValue(r) == n
  {
    var digit := ('0' as int + n % 10) as char;
    if n < 10 then [digit]
    else
      var r := NatToString(n / 10) + [digit];
      assert r[..|r| - 1] == NatToString(n / 10);
      r
  }
}
