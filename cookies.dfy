/** `getCookie(name)` of js/utils.js: the page's cookie string (`document.cookie`,
    here a parameter) is prefixed with `"; "` and split on `"; name="`; only
    when that gives exactly two pieces is the second one cut at the first
    `';'` and returned, otherwise the result is `''`. */
module Cookies {
  import opened Wrappers
  import opened Strings

  function Separator(name: string): string {
    "; " + name + "="
  }

  function GetCookie(cookie: string, name: string): (r: string)
    ensures ';' !in r
  {
    var value := "; " + cookie;
    var parts := Split(value, Separator(name));
    FirstPieceLacksSeparator(if |parts| == 2 then parts[1] else "", ';');
    if |parts| == 2 then Split(parts[1], ";")[0] else ""
  }

  /** A separator occurrence in a suffix is one in the whole string. */
  lemma MatchInSuffix(s: string, sep: string, k: nat, q: nat)
    requires k <= |s| && MatchAt(s[k..], sep, q)
    ensures MatchAt(s, sep, k + q)
  {
    assert s[k + q..k + q + |sep|] == s[k..][q..q + |sep|];
  }

  /** No `"; name="` in `"; " + cookie`: the cookie is not set. */
  lemma AbsentGivesEmpty(cookie: string, name: string)
    requires forall q :: 0 <= q <= |"; " + cookie| ==> !MatchAt("; " + cookie, Separator(name), q)
    ensures GetCookie(cookie, name) == ""
  {
    assert FindFrom("; " + cookie, Separator(name), 0).None?;
  }

  /** A separator occurrence at or after `k` is one in the suffix from `k`. */
  lemma MatchInWhole(s: string, sep: string, k: nat, j: nat)
    requires k <= j && MatchAt(s, sep, j)
    ensures MatchAt(s[k..], sep, j - k)
  {
    assert s[k..][j - k..j - k + |sep|] == s[j..j + |sep|];
  }

  /** Splitting at the first occurrence, then the rest. */
  lemma SplitAtFirst(s: string, sep: string, i: nat)
    requires |sep| > 0 && FindFrom(s, sep, 0) == Some(i)
    ensures Split(s, sep) == [s[..i]] + Split(s[i + |sep|..], sep)
  {
  }

  /** Two non-overlapping occurrences of `"; name="`: the split gives three or
      more pieces and the result is empty. */
  lemma RepeatedGivesEmpty(cookie: string, name: string, i: nat, j: nat)
    requires MatchAt("; " + cookie, Separator(name), i)
    requires MatchAt("; " + cookie, Separator(name), j)
    requires i + |Separator(name)| <= j
    ensures GetCookie(cookie, name) == ""
  {
    var value, sep := "; " + cookie, Separator(name);
    var first := FindFrom(value, sep, 0);
    assert first.Some? && first.value <= i;
    var k := first.value + |sep|;
    var rest := value[k..];
    MatchInWhole(value, sep, k, j);
    var second := FindFrom(rest, sep, 0);
    assert second.Some?;
    SplitAtFirst(value, sep, first.value);
    SplitAtFirst(rest, sep, second.value);
  }

  /** Cutting `v + after` at the first `';'` gives `v` when `v` has no `';'`
      and `after` is empty or starts a new pair. */
  lemma FirstPieceIsValue(v: string, after: string)
    requires ';' !in v
    requires after == "" || after[0] == ';'
    ensures Split(v + after, ";")[0] == v
  {
    var s := v + after;
    forall q | 0 <= q < |v|
      ensures !MatchAt(s, ";", q)
    {
      MatchAtSingle(s, ';', q);
      assert s[q] == v[q];
    }
    if after == "" {
      assert s == v;
      MatchAtSingle(s, ';', |v|);
      assert FindFrom(s, ";", 0).None?;
    } else {
      MatchAtSingle(s, ';', |v|);
      assert FindFrom(s, ";", 0) == Some(|v|);
      assert s[..|v|] == v;
    }
  }

  /** A separator that occurs exactly once splits the string in two. */
  lemma SplitSingle(s: string, sep: string, p: nat)
    requires |sep| > 0 && MatchAt(s, sep, p)
    requires forall q :: MatchAt(s, sep, q) ==> q == p
    ensures Split(s, sep) == [s[..p], s[p + |sep|..]]
  {
    var f := FindFrom(s, sep, 0);
    assert p <= |s|;
    assert f.Some?;
    assert f.value == p;
    SplitAtFirst(s, sep, p);
    var rest := s[p + |sep|..];
    forall q | 0 <= q <= |rest|
      ensures !MatchAt(rest, sep, q)
    {
      if MatchAt(rest, sep, q) {
        MatchInSuffix(s, sep, p + |sep|, q);
      }
    }
    assert FindFrom(rest, sep, 0).None?;
  }

  /** Where the pair sits in `"; " + cookie`: the separator starts at the
      length of the prefix, and the value and what follows come after it. */
  lemma PairLayout(prefix: string, name: string, v: string, after: string)
    requires prefix == "" || (|prefix| >= 2 && prefix[|prefix| - 2..] == "; ")
    ensures var value := "; " + (prefix + name + "=" + v + after);
      && MatchAt(value, Separator(name), |prefix|)
      && value[|prefix| + |Separator(name)|..] == v + after
  {
    var value, sep := "; " + (prefix + name + "=" + v + after), Separator(name);
    var front := if prefix == "" then "" else "; " + prefix[..|prefix| - 2];
    assert value == front + sep + (v + after) by {
      if prefix != "" {
        assert prefix == prefix[..|prefix| - 2] + "; ";
      }
    }
    assert value[|prefix|..|prefix| + |sep|] == sep;
  }

  /** Round trip: a cookie string holding the pair `name=v` once, first or
      after a `"; "`, with `v` free of `';'` and followed by nothing or the
      next pair, gives back `v`. */
  lemma SetCookieIsRead(prefix: string, name: string, v: string, after: string)
    requires prefix == "" || (|prefix| >= 2 && prefix[|prefix| - 2..] == "; ")
    requires ';' !in v
    requires after == "" || after[0] == ';'
    requires forall q :: MatchAt("; " + (prefix + name + "=" + v + after), Separator(name), q) ==> q == |prefix|
    ensures GetCookie(prefix + name + "=" + v + after, name) == v
  {
    var value := "; " + (prefix + name + "=" + v + after);
    PairLayout(prefix, name, v, after);
    SplitSingle(value, Separator(name), |prefix|);
    FirstPieceIsValue(v, after);
  }

  /** A cookie whose name merely ends in `name` (a longer name `p + name`) is
      not read as `name`: the separator needs the `"; "` right before `name`. */
  lemma LongerNameNotMatched(p: string, name: string, v: string)
    requires p != "" && '=' !in p + name && ';' !in p + name + v
    ensures GetCookie(p + name + "=" + v, name) == ""
  {
    var cookie := p + name + "=" + v;
    var value, sep := "; " + cookie, Separator(name);
    assert cookie == (p + name) + "=" + v;
    assert ';' !in cookie by {
      forall i | 0 <= i < |cookie| ensures cookie[i] != ';' {
        if i < |p + name| {
          assert cookie[i] == (p + name)[i];
        } else if i > |p + name| {
          assert cookie[i] == (p + name + v)[i - 1];
        }
      }
    }
    forall q | 0 <= q <= |value| ensures !MatchAt(value, sep, q) {
      if q + |sep| <= |value| {
        if q == 0 {
          // the `=` after `name` would have to be a character of `p + name`
          assert value[2 + |name|] == (p + name)[|name|];
          assert value[q..q + |sep|][2 + |name|] != sep[2 + |name|];
        } else {
          // the only `;` of `value` is its first character
          assert q >= 2 ==> value[q] == cookie[q - 2];
          assert value[q..q + |sep|][0] != sep[0];
        }
      }
    }
    AbsentGivesEmpty(cookie, name);
  }
}
