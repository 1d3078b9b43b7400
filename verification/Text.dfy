/** ASCII model of the string helpers the domain package relies on: trimming surrounding white space and
    folding to lower case.  Both are applied before alerts are compared, so what matters is which strings they
    identify and that applying them again changes nothing. */
module Text {

  predicate IsSpace(c: char) {
    c == ' ' || c == '\t' || c == '\n' || c == '\r' || c as int == 11 || c as int == 12
  }

  function LowerChar(c: char): (r: char)
    ensures IsSpace(r) <==> IsSpace(c)
    ensures !('A' <= r <= 'Z')
  {
    if 'A' <= c <= 'Z' then (c as int + 32) as char else c
  }

  function ToLower(s: string): (r: string)
    ensures |r| == |s|
    ensures forall i :: 0 <= i < |s| ==> r[i] == LowerChar(s[i])
  {
    seq(|s|, i requires 0 <= i < |s| => LowerChar(s[i]))
  }

  /** The first position at or after `i` that is not white space. */
  function SkipSpace(s: string, i: nat): (j: nat)
    requires i <= |s|
    ensures i <= j <= |s|
    ensures forall k :: i <= k < j ==> IsSpace(s[k])
    ensures j < |s| ==> !IsSpace(s[j])
    decreases |s| - i
  {
    if i < |s| && IsSpace(s[i]) then SkipSpace(s, i + 1) else i
  }

  /** The last end position between `lo` and `i` that does not follow white space. */
  function SkipSpaceBack(s: string, lo: nat, i: nat): (j: nat)
    requires lo <= i <= |s|
    ensures lo <= j <= i
    ensures forall k :: j <= k < i ==> IsSpace(s[k])
    ensures lo < j ==> !IsSpace(s[j - 1])
    decreases i
  {
    if lo < i && IsSpace(s[i - 1]) then SkipSpaceBack(s, lo, i - 1) else i
  }

  function TrimSpace(s: string): (r: string)
    ensures r != "" ==> !IsSpace(r[0]) && !IsSpace(r[|r| - 1])
    ensures |r| <= |s|
  {
    var lo := SkipSpace(s, 0);
    s[lo..SkipSpaceBack(s, lo, |s|)]
  }

  /** Exactly the six ASCII white-space characters count as white space, and exactly the capital letters are changed, each
      to its small letter. */
  lemma CharactersAreAscii(c: char)
    ensures IsSpace(c) <==> c as int == 32 || 9 <= c as int <= 13
    ensures LowerChar(c) as int == c as int + (if 65 <= c as int <= 90 then 32 else 0)
  {
  }

  /** Trimming cuts off white space at both ends, all of it, and nothing else. */
  lemma TrimSpaceCuts(s: string) returns (lo: nat, hi: nat)
    ensures lo <= hi <= |s| && TrimSpace(s) == s[lo..hi]
    ensures forall k :: 0 <= k < lo || hi <= k < |s| ==> IsSpace(s[k])
    ensures lo < hi ==> !IsSpace(s[lo]) && !IsSpace(s[hi - 1])
  {
    lo := SkipSpace(s, 0);
    hi := SkipSpaceBack(s, lo, |s|);
  }

  /** The form under which service, title, fingerprint and label text is compared. */
  function Fold(s: string): string {
    ToLower(TrimSpace(s))
  }

  /** Text without surrounding white space is left alone. */
  lemma TrimmedIsFixed(s: string)
    requires s == "" || (!IsSpace(s[0]) && !IsSpace(s[|s| - 1]))
    ensures TrimSpace(s) == s
  {
  }

  lemma {:induction false} TrimIdempotent(s: string)
    ensures TrimSpace(TrimSpace(s)) == TrimSpace(s)
  {
    TrimmedIsFixed(TrimSpace(s));
  }

  lemma {:induction false} LowerIdempotent(s: string)
    ensures ToLower(ToLower(s)) == ToLower(s)
  {
    assert forall i :: 0 <= i < |s| ==> ToLower(ToLower(s))[i] == ToLower(s)[i];
  }

  /** Folding is a normal form: trimming or folding beforehand does not change it. */
  lemma {:induction false} FoldAbsorbs(s: string)
    ensures Fold(TrimSpace(s)) == Fold(s)
    ensures Fold(Fold(s)) == Fold(s)
  {
    hide TrimSpace, ToLower;
    TrimIdempotent(s);
    LowerKeepsTrimmed(TrimSpace(s));
    LowerIdempotent(TrimSpace(s));
  }

  lemma {:induction false} LowerKeepsTrimmed(t: string)
    requires t != "" ==> !IsSpace(t[0]) && !IsSpace(t[|t| - 1])
    ensures TrimSpace(ToLower(t)) == ToLower(t)
  {
    var low := ToLower(t);
    if t != "" {
      assert low[0] == LowerChar(t[0]) && low[|t| - 1] == LowerChar(t[|t| - 1]);
    }
    TrimmedIsFixed(low);
  }

  // ---- decimal text, as produced by the %d verb for step numbers ----

  function Decimal(n: nat): (r: string)
    ensures r != ""
    ensures forall i :: 0 <= i < |r| ==> '0' <= r[i] <= '9'
  {
    if n < 10 then [('0' as int + n) as char]
    else Decimal(n / 10) + [('0' as int + n % 10) as char]
  }

  /** The number a string of digits denotes. */
  function Value(s: string): nat
    requires forall i :: 0 <= i < |s| ==> '0' <= s[i] <= '9'
  {
    if s == "" then 0
    else 10 * Value(s[..|s| - 1]) + (s[|s| - 1] as int - '0' as int)
  }

  lemma {:induction false} DecimalRoundTrip(n: nat)
    ensures Value(Decimal(n)) == n
  {
    var r := Decimal(n);
    if n < 10 {
      assert r[..|r| - 1] == "";
    } else {
      DecimalRoundTrip(n / 10);
      assert r[..|r| - 1] == Decimal(n / 10);
    }
  }
}
