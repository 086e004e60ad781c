/** `escapeHtml`: the managers assign the text to a detached element's
    `textContent` and read back its `innerHTML`. That serialisation of a text
    node is the "escaping a string" step of section 13.3 (Serializing HTML
    fragments) of the HTML Living Standard, not in attribute mode: `&`, U+00A0,
    `<` and `>` become `&amp;`, `&nbsp;`, `&lt;` and `&gt;`; every other
    character is kept. */
module Html {

  const NoBreakSpace: char := '\U{00A0}'

  function EscapeChar(c: char): string {
    if c == '&' then "&amp;"
    else if c == NoBreakSpace then "&nbsp;"
    else if c == '<' then "&lt;"
    else if c == '>' then "&gt;"
    else [c]
  }

  function EscapeText(s: string): string
    decreases |s|
  {
    if s == [] then [] else EscapeChar(s[0]) + EscapeText(s[1..])
  }

  /** `escapeHtml(text)`: a falsy (empty) text gives the empty string before any
      element is created; otherwise the serialised text node. */
  function EscapeHtml(text: string): (r: string)
    ensures text == "" ==> r == ""
    ensures Unescape(r) == text
  {
    UnescapeEscapeText(text);
    if text == "" then "" else EscapeText(text)
  }

  /** `p` is a prefix of `s`. */
  predicate StartsWith(s: string, p: string) {
    |p| <= |s| && s[..|p|] == p
  }

  /** The character a reference decoder reads at the front of a non-empty `s`,
      and how many characters it consumes. */
  function DecodeFirst(s: string): (r: (char, nat))
    requires s != []
    ensures 1 <= r.1 <= |s|
  {
    if StartsWith(s, "&amp;") then ('&', 5)
    else if StartsWith(s, "&nbsp;") then (NoBreakSpace, 6)
    else if StartsWith(s, "&lt;") then ('<', 4)
    else if StartsWith(s, "&gt;") then ('>', 4)
    else (s[0], 1)
  }

  /** Reference decoder for the four character references the escaping produces. */
  function Unescape(s: string): string
    decreases |s|
  {
    if s == [] then [] else var d := DecodeFirst(s); [d.0] + Unescape(s[d.1..])
  }

  /** The decoder reads an escaped character back, whatever follows it. */
  lemma DecodeEscapedChar(c: char, t: string)
    ensures DecodeFirst(EscapeChar(c) + t) == (c, |EscapeChar(c)|)
  {
    var u := EscapeChar(c) + t;
    assert u[..|EscapeChar(c)|] == EscapeChar(c);
    if c == NoBreakSpace {
      assert u[1] == 'n';
    } else if c == '<' {
      assert u[1] == 'l';
    } else if c == '>' {
      assert u[1] == 'g';
    } else if c != '&' {
      assert u[0] == c;
    }
  }

  /** Decoding undoes the escape of one character, whatever follows. */
  lemma UnescapeEscapeChar(c: char, t: string)
    ensures Unescape(EscapeChar(c) + t) == [c] + Unescape(t)
  {
    var u := EscapeChar(c) + t;
    DecodeEscapedChar(c, t);
    assert u[|EscapeChar(c)|..] == t;
  }

  /** The escaping loses nothing: decoding it gives the text back. */
  lemma {:induction false} UnescapeEscapeText(s: string)
    ensures Unescape(EscapeText(s)) == s
    decreases |s|
  {
    if s != [] {
      UnescapeEscapeChar(s[0], EscapeText(s[1..]));
      UnescapeEscapeText(s[1..]);
      assert [s[0]] + s[1..] == s;
    }
  }

  /** The escaped text opens and closes no tag. */
  lemma {:induction false} EscapedHasNoAngleBrackets(s: string)
    ensures '<' !in EscapeText(s) && '>' !in EscapeText(s)
    decreases |s|
  {
    if s != [] {
      EscapedHasNoAngleBrackets(s[1..]);
      var e := EscapeChar(s[0]);
      assert '<' !in e && '>' !in e;
    }
  }

  /** Text without the four special characters is serialised unchanged. */
  lemma {:induction false} PlainTextUnchanged(s: string)
    requires forall i :: 0 <= i < |s| ==> s[i] !in {'&', NoBreakSpace, '<', '>'}
    ensures EscapeText(s) == s
    decreases |s|
  {
    if s != [] {
      PlainTextUnchanged(s[1..]);
      assert [s[0]] + s[1..] == s;
    }
  }
}
