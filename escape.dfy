/**
 * The `html_escape` helper of src/spinbot.py: three chained `str.replace`
 * calls, `&` first, then `<`, then `>`.
 */
module HtmlEscaping {

  /** `s.replace(c, rep)` for a one-character pattern: every `c` becomes `rep`. */
  function ReplaceChar(s: string, c: char, rep: string): string
  {
    if s == [] then [] else (if s[0] == c then rep else [s[0]]) + ReplaceChar(s[1..], c, rep)
  }

  lemma {:induction false} ReplaceCharAbsent(s: string, c: char, rep: string)
    requires c !in s
    ensures ReplaceChar(s, c, rep) == s
  {
    if s != [] {
      ReplaceCharAbsent(s[1..], c, rep);
    }
  }

  lemma {:induction false} ReplaceCharAppend(a: string, b: string, c: char, rep: string)
    ensures ReplaceChar(a + b, c, rep) == ReplaceChar(a, c, rep) + ReplaceChar(b, c, rep)
  {
    if a == [] {
      assert a + b == b;
    } else {
      assert (a + b)[1..] == a[1..] + b;
      ReplaceCharAppend(a[1..], b, c, rep);
    }
  }

  /** A character absent from the input and from the replacement is absent from the output. */
  lemma {:induction false} ReplaceCharKeepsAbsent(s: string, c: char, rep: string, d: char)
    requires d !in s && d !in rep
    ensures d !in ReplaceChar(s, c, rep)
  {
    if s != [] {
      ReplaceCharKeepsAbsent(s[1..], c, rep, d);
    }
  }

  /** Replacing `c` by a text without `c` leaves no `c` behind. */
  lemma {:induction false} ReplaceCharRemoves(s: string, c: char, rep: string)
    requires c !in rep
    ensures c !in ReplaceChar(s, c, rep)
  {
    if s != [] {
      ReplaceCharRemoves(s[1..], c, rep);
    }
  }

  /** The characters `html_escape` rewrites. */
  predicate Special(ch: char) {
    ch == '&' || ch == '<' || ch == '>'
  }

  function HtmlEscape(s: string): (r: string)
    ensures '<' !in r && '>' !in r
    ensures (forall i :: 0 <= i < |s| ==> !Special(s[i])) ==> r == s
  {
    var a := ReplaceChar(s, '&', "&amp;");
    var b := ReplaceChar(a, '<', "&lt;");
    var r := ReplaceChar(b, '>', "&gt;");
    ReplaceCharRemoves(a, '<', "&lt;");
    ReplaceCharKeepsAbsent(b, '>', "&gt;", '<');
    ReplaceCharRemoves(b, '>', "&gt;");
    if forall i :: 0 <= i < |s| ==> !Special(s[i]) then
      ReplaceCharAbsent(s, '&', "&amp;");
      ReplaceCharAbsent(a, '<', "&lt;");
      ReplaceCharAbsent(b, '>', "&gt;");
      r
    else
      r
  }

  /** The token one input character becomes. */
  function EscapeChar(ch: char): string {
    if ch == '&' then "&amp;"
    else if ch == '<' then "&lt;"
    else if ch == '>' then "&gt;"
    else [ch]
  }

  /** Reference definition: escape character by character and concatenate the tokens. */
  function EscapeEach(s: string): string {
    if s == [] then [] else EscapeChar(s[0]) + EscapeEach(s[1..])
  }

  lemma ReplaceCharSingle(ch: char, c: char, rep: string)
    ensures ReplaceChar([ch], c, rep) == if ch == c then rep else [ch]
  {
    assert [ch][1..] == [];
  }

  lemma EscapeOneChar(ch: char)
    ensures HtmlEscape([ch]) == EscapeChar(ch)
  {
    ReplaceCharSingle(ch, '&', "&amp;");
    var a := ReplaceChar([ch], '&', "&amp;");
    var b := ReplaceChar(a, '<', "&lt;");
    if ch == '&' {
      ReplaceCharAbsent(a, '<', "&lt;");
      ReplaceCharAbsent(b, '>', "&gt;");
    } else {
      ReplaceCharSingle(ch, '<', "&lt;");
      if ch == '<' {
        ReplaceCharAbsent(b, '>', "&gt;");
      } else {
        ReplaceCharSingle(ch, '>', "&gt;");
      }
    }
  }

  lemma HtmlEscapeAppend(x: string, y: string)
    ensures HtmlEscape(x + y) == HtmlEscape(x) + HtmlEscape(y)
  {
    ReplaceCharAppend(x, y, '&', "&amp;");
    var ax, ay := ReplaceChar(x, '&', "&amp;"), ReplaceChar(y, '&', "&amp;");
    ReplaceCharAppend(ax, ay, '<', "&lt;");
    var bx, b2 := ReplaceChar(ax, '<', "&lt;"), ReplaceChar(ay, '<', "&lt;");
    ReplaceCharAppend(bx, b2, '>', "&gt;");
  }

  /**
   * Because `&` is replaced first, the chained replacements never touch the
   * `&` of a token they produced: the result is the per-character escape.
   */
  lemma {:induction false} HtmlEscapeIsTokenwise(s: string)
    ensures HtmlEscape(s) == EscapeEach(s)
  {
    if s == [] {
    } else {
      assert s == [s[0]] + s[1..];
      HtmlEscapeAppend([s[0]], s[1..]);
      EscapeOneChar(s[0]);
      HtmlEscapeIsTokenwise(s[1..]);
    }
  }

  /** Decodes the three entities `html_escape` produces; any other character stands for itself. */
  function Unescape(s: string): string
    decreases |s|
  {
    if s == [] then []
    else if |s| >= 5 && s[..5] == "&amp;" then "&" + Unescape(s[5..])
    else if |s| >= 4 && s[..4] == "&lt;" then "<" + Unescape(s[4..])
    else if |s| >= 4 && s[..4] == "&gt;" then ">" + Unescape(s[4..])
    else [s[0]] + Unescape(s[1..])
  }

  /** Decoding undoes the escape of one leading character. */
  lemma UnescapeToken(ch: char, rest: string)
    ensures Unescape(EscapeChar(ch) + rest) == [ch] + Unescape(rest)
  {
    var e := EscapeChar(ch) + rest;
    if ch == '&' {
      assert e[..5] == "&amp;" && e[5..] == rest;
    } else if ch == '<' {
      assert e[1] == 'l' && e[..4] == "&lt;" && e[4..] == rest;
    } else if ch == '>' {
      assert e[1] == 'g' && e[..4] == "&gt;" && e[4..] == rest;
    } else {
      assert e[0] == ch && e[1..] == rest;
    }
  }

  lemma {:induction false} UnescapeEscapeEach(s: string)
    ensures Unescape(EscapeEach(s)) == s
  {
    if s != [] {
      assert EscapeEach(s) == EscapeChar(s[0]) + EscapeEach(s[1..]);
      UnescapeToken(s[0], EscapeEach(s[1..]));
      UnescapeEscapeEach(s[1..]);
      assert s == [s[0]] + s[1..];
    }
  }

  /** No double escaping: the escape is undone exactly, so distinct inputs stay distinct. */
  lemma HtmlEscapeRoundTrip(s: string)
    ensures Unescape(HtmlEscape(s)) == s
  {
    HtmlEscapeIsTokenwise(s);
    UnescapeEscapeEach(s);
  }

  lemma HtmlEscapeInjective(s: string, t: string)
    requires HtmlEscape(s) == HtmlEscape(t)
    ensures s == t
  {
    HtmlEscapeRoundTrip(s);
    HtmlEscapeRoundTrip(t);
  }
}
