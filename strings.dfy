/** String helpers shared by the formatters: decimal rendering of integers and
    `String.prototype.split` with a non-empty separator. */
module Strings {
  import opened Wrappers

  predicate IsDigit(c: char) {
    '0' <= c <= '9'
  }

  predicate AllDigits(s: string) {
    forall i :: 0 <= i < |s| ==> IsDigit(s[i])
  }

  function DigitChar(d: nat): (c: char)
    requires d < 10
    ensures IsDigit(c) && c as int - '0' as int == d
  {
    ('0' as int + d) as char
  }

  /** Decimal rendering of a natural number, as JavaScript prints an integral Number. */
  function NatToString(n: nat): (s: string)
    ensures |s| >= 1 && AllDigits(s)
    ensures s[0] == '0' ==> n == 0
    decreases n
  {
    if n < 10 then [DigitChar(n)] else NatToString(n / 10) + [DigitChar(n % 10)]
  }

  /** Decimal rendering of an integer with a leading '-' when negative. */
  function IntToString(n: int): (s: string)
    ensures n >= 0 ==> s == NatToString(n)
    ensures n < 0 ==> s == "-" + NatToString(-n)
  {
    if n < 0 then "-" + NatToString(-n) else NatToString(n)
  }

  /** `sep` occurs in `s` at position `p`. */
  predicate MatchAt(s: string, sep: string, p: nat) {
    p + |sep| <= |s| && s[p..p + |sep|] == sep
  }

  /** The first position at or after `p` where `sep` occurs. */
  function FindFrom(s: string, sep: string, p: nat): (r: Option<nat>)
    requires p <= |s|
    ensures r.Some? ==> p <= r.value <= |s| && MatchAt(s, sep, r.value)
    ensures r.Some? ==> forall q :: p <= q < r.value ==> !MatchAt(s, sep, q)
    ensures r.None? ==> forall q :: p <= q <= |s| ==> !MatchAt(s, sep, q)
    decreases |s| - p
  {
    if MatchAt(s, sep, p) then Some(p)
    else if p == |s| then None
    else FindFrom(s, sep, p + 1)
  }

  /** `s.split(sep)` for a non-empty separator: the pieces between the
      non-overlapping occurrences of `sep`, found from left to right. */
  function Split(s: string, sep: string): (parts: seq<string>)
    requires |sep| > 0
    ensures |parts| >= 1
    decreases |s|
  {
    match FindFrom(s, sep, 0)
    case None => [s]
    case Some(i) => [s[..i]] + Split(s[i + |sep|..], sep)
  }

  lemma MatchAtSingle(s: string, c: char, p: nat)
    ensures MatchAt(s, [c], p) <==> p < |s| && s[p] == c
  {
    if p < |s| && s[p] == c {
      assert s[p..p + 1] == [c];
    }
  }

  /** The first piece of `s.split(c)` never contains `c`. */
  lemma {:induction false} FirstPieceLacksSeparator(s: string, c: char)
    ensures c !in Split(s, [c])[0]
  {
    var first := Split(s, [c])[0];
    match FindFrom(s, [c], 0)
    case None =>
      forall k | 0 <= k < |s| ensures s[k] != c {
        MatchAtSingle(s, c, k);
      }
    case Some(i) =>
      assert first == s[..i];
      forall k | 0 <= k < i ensures s[k] != c {
        MatchAtSingle(s, c, k);
      }
  }

  /** The last piece of `s.split(c)` is the longest suffix of `s` without `c`:
      it has no `c`, it ends `s`, and it is either all of `s` or preceded by a `c`. */
  lemma {:induction false} LastPieceIsSuffixWithoutSeparator(s: string, c: char)
    ensures var parts := Split(s, [c]);
            var last := parts[|parts| - 1];
            && c !in last
            && |last| <= |s| && s[|s| - |last|..] == last
            && (|last| < |s| ==> s[|s| - |last| - 1] == c)
    decreases |s|
  {
    match FindFrom(s, [c], 0)
    case None =>
      forall k | 0 <= k < |s| ensures s[k] != c {
        MatchAtSingle(s, c, k);
      }
    case Some(i) =>
      MatchAtSingle(s, c, i);
      var rest := s[i + 1..];
      var tail := Split(rest, [c]);
      assert Split(s, [c]) == [s[..i]] + tail;
      LastPieceIsSuffixWithoutSeparator(rest, c);
      var last := tail[|tail| - 1];
      assert s[|s| - |last|..] == rest[|rest| - |last|..];
      if |last| < |rest| {
        assert s[|s| - |last| - 1] == rest[|rest| - |last| - 1];
      }
  }
}
