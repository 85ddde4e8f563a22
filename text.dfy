/** Text helpers the init command relies on: Go's strings.Contains and the
    alphabet of CometBFT's random-string generator. */
module Text {

  /** `sub` occurs in `s` starting at index `i`. */
  predicate OccursAt(s: string, sub: string, i: nat) {
    i + |sub| <= |s| && s[i..i + |sub|] == sub
  }

  /** strings.Contains: `sub` occurs somewhere in `s` (the empty string occurs everywhere). */
  function Contains(s: string, sub: string): (r: bool)
    ensures r <==> exists i: nat :: OccursAt(s, sub, i)
    decreases |s|
  {
    if |s| < |sub| then
      assert forall i: nat :: !OccursAt(s, sub, i);
      false
    else if s[..|sub|] == sub then
      assert OccursAt(s, sub, 0);
      true
    else
      var r := Contains(s[1..], sub);
      if r then
        var j: nat :| OccursAt(s[1..], sub, j);
        assert s[1..][j..j + |sub|] == s[j + 1..j + 1 + |sub|];
        assert OccursAt(s, sub, j + 1);
        true
      else
        assert !OccursAt(s, sub, 0) by { assert s[0..|sub|] == s[..|sub|]; }
        forall i: nat | 0 < i && OccursAt(s, sub, i) ensures OccursAt(s[1..], sub, i - 1) {
          assert s[1..][i - 1..i - 1 + |sub|] == s[i..i + |sub|];
        }
        false
  }

  /** No occurrence of `sub` can start before index `k` (its first character is
      absent there) nor at or after it (too little text is left). */
  lemma {:induction false} AbsentWhenFirstCharMissing(s: string, sub: string, k: nat)
    requires 0 < |sub| && k <= |s| && |s| - k < |sub|
    requires forall j :: 0 <= j < k ==> s[j] != sub[0]
    ensures !Contains(s, sub)
  {
    forall i: nat ensures !OccursAt(s, sub, i) {
      if i + |sub| <= |s| {
        assert s[i..i + |sub|][0] == s[i] != sub[0];
      }
    }
  }

  /** The characters CometBFT's `Rand.Str` draws from: ASCII letters and digits. */
  predicate IsAlphanumeric(c: char) {
    ('0' <= c <= '9') || ('A' <= c <= 'Z') || ('a' <= c <= 'z')
  }
}
