/** NUL-terminated byte strings, bytes modelled as characters with the
    same code. */
module CStrings {
  /** The C string held by a byte buffer: the bytes before the first NUL. */
  function CStr(s: string): (r: string)
    ensures |r| <= |s| && r == s[..|r|]
    ensures '\0' !in r
    ensures |r| < |s| ==> s[|r|] == '\0'
    decreases |s|
  {
    if |s| == 0 || s[0] == '\0' then [] else [s[0]] + CStr(s[1..])
  }

  /** Writing a NUL at `k` cuts the C string at `k` at the latest. */
  lemma {:induction false} CStrCut(s: string, k: int)
    requires 0 <= k < |s|
    ensures CStr(s[k := '\0']) == CStr(s[..k])
    decreases k
  {
    if k > 0 && s[0] != '\0' {
      CStrCut(s[1..], k - 1);
      assert s[k := '\0'][1..] == s[1..][k - 1 := '\0'];
      assert s[..k][1..] == s[1..][..k - 1];
    }
  }

  /** `n` NUL bytes, what memset(buf, 0, n) leaves. */
  function Zeros(n: nat): (z: string)
    ensures |z| == n && forall i :: 0 <= i < n ==> z[i] == '\0'
  {
    seq(n, _ => '\0')
  }

  /** A buffer whose bytes after `k` are NUL holds the C string of its first
      `k` bytes. */
  lemma {:induction false} CStrOfZeroTail(s: string, k: nat)
    requires k < |s| && forall i :: k <= i < |s| ==> s[i] == '\0'
    ensures CStr(s) == CStr(s[..k])
  {
    assert s[k := '\0'] == s;
    CStrCut(s, k);
  }

  /** `pat` occurs in `s` starting at index `i`. */
  predicate OccursAt(s: string, pat: string, i: int) {
    0 <= i && i + |pat| <= |s| && s[i..i + |pat|] == pat
  }

  /** strstr(s, pat) != NULL */
  function HasSubstring(s: string, pat: string): (b: bool)
    ensures b <==> exists i :: OccursAt(s, pat, i)
    decreases |s|
  {
    if |s| < |pat| then false
    else if s[..|pat|] == pat then assert OccursAt(s, pat, 0); true
    else
      var b := HasSubstring(s[1..], pat);
      assert forall i :: OccursAt(s, pat, i) <==> i > 0 && OccursAt(s[1..], pat, i - 1);
      if b then
        var j :| OccursAt(s[1..], pat, j);
        assert OccursAt(s, pat, j + 1);
        b
      else b
  }
}
