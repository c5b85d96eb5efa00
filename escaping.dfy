/**
 * The text transform of Form.AutoGrow: `escapeHTML` followed by the
 * line-break rewrite. Together they turn a textarea's value into the markup
 * that `resize` writes into the hidden measuring element.
 */
module Escaping {

  /** `s.replace(/c/g, rep)` for a pattern that is one literal character. */
  function ReplaceAll(s: string, c: char, rep: string): (r: string)
    ensures c !in rep ==> c !in r
    ensures forall x :: x != c && x !in rep ==> (x in r <==> x in s)
  {
    if s == [] then []
    else (if s[0] == c then rep else [s[0]]) + ReplaceAll(s[1..], c, rep)
  }

  lemma {:induction false} ReplaceAllAppend(a: string, b: string, c: char, rep: string)
    ensures ReplaceAll(a + b, c, rep) == ReplaceAll(a, c, rep) + ReplaceAll(b, c, rep)
  {
    if a == [] {
      assert a + b == b;
    } else {
      assert (a + b)[0] == a[0];
      assert (a + b)[1..] == a[1..] + b;
      ReplaceAllAppend(a[1..], b, c, rep);
    }
  }

  lemma {:induction false} ReplaceAllAbsent(s: string, c: char, rep: string)
    requires c !in s
    ensures ReplaceAll(s, c, rep) == s
  {
    if s != [] {
      assert s[0] != c && c !in s[1..];
      ReplaceAllAbsent(s[1..], c, rep);
    }
  }

  lemma ReplaceAllSingle(x: char, c: char, rep: string)
    ensures ReplaceAll([x], c, rep) == if x == c then rep else [x]
  {
  }

  /** `escapeHTML` as written: three chained global replacements; `&` is left alone. */
  function EscapeHtml(s: string): (r: string)
    ensures '<' !in r && '>' !in r && '"' !in r
  {
    ReplaceAll(ReplaceAll(ReplaceAll(s, '<', "&lt;"), '>', "&gt;"), '"', "&quot;")
  }

  /** The entity a single character becomes; every other character stands for itself. */
  function EscapeChar(c: char): string
  {
    if c == '<' then "&lt;"
    else if c == '>' then "&gt;"
    else if c == '"' then "&quot;"
    else [c]
  }

  /** Reference definition: each character escaped on its own, the results concatenated in order. */
  function EscapeEach(s: string): string
  {
    if s == [] then [] else EscapeChar(s[0]) + EscapeEach(s[1..])
  }

  /** The three chained replacements act character by character, in order. */
  lemma {:induction false} EscapeHtmlIsPerCharacter(s: string)
    ensures EscapeHtml(s) == EscapeEach(s)
  {
    if s != [] {
      var c, t := s[0], s[1..];
      assert s == [c] + t;
      var t1 := ReplaceAll(t, '<', "&lt;");
      var t2 := ReplaceAll(t1, '>', "&gt;");
      var c1 := ReplaceAll([c], '<', "&lt;");
      ReplaceAllSingle(c, '<', "&lt;");
      ReplaceAllAppend([c], t, '<', "&lt;");
      ReplaceAllAppend(c1, t1, '>', "&gt;");
      var c2 := ReplaceAll(c1, '>', "&gt;");
      if c == '<' {
        ReplaceAllAbsent(c1, '>', "&gt;");
      } else {
        ReplaceAllSingle(c, '>', "&gt;");
      }
      ReplaceAllAppend(c2, t2, '"', "&quot;");
      var c3 := ReplaceAll(c2, '"', "&quot;");
      if c == '<' || c == '>' {
        ReplaceAllAbsent(c2, '"', "&quot;");
      } else {
        ReplaceAllSingle(c, '"', "&quot;");
      }
      assert c3 == EscapeChar(c);
      EscapeHtmlIsPerCharacter(t);
    }
  }

  /** Decodes the three entities `escapeHTML` produces; every other character is kept. */
  function Unescape(h: string): string
    decreases |h|
  {
    if h == [] then []
    else if |h| >= 4 && h[..4] == "&lt;" then ['<'] + Unescape(h[4..])
    else if |h| >= 4 && h[..4] == "&gt;" then ['>'] + Unescape(h[4..])
    else if |h| >= 6 && h[..6] == "&quot;" then ['"'] + Unescape(h[6..])
    else [h[0]] + Unescape(h[1..])
  }

  /** On text without `&`, escaping loses nothing: decoding gives the text back. */
  lemma {:induction false} UnescapeEscape(s: string)
    requires '&' !in s
    ensures Unescape(EscapeEach(s)) == s
  {
    if s != [] {
      var c, t := s[0], s[1..];
      var h := EscapeEach(s);
      assert h == EscapeChar(c) + EscapeEach(t);
      assert '&' !in t;
      UnescapeEscape(t);
      if c == '<' || c == '>' {
        assert h[..4] == EscapeChar(c) && h[4..] == EscapeEach(t);
      } else if c == '"' {
        assert h[..4] == "&quo";
        assert h[..6] == "&quot;" && h[6..] == EscapeEach(t);
      } else {
        assert h[0] == c && h[1..] == EscapeEach(t);
        assert |h| >= 4 ==> h[..4][0] == c;
        assert |h| >= 6 ==> h[..6][0] == c;
      }
      assert s == [c] + t;
    }
  }

  /**
   * Because `&` is copied unchanged, a literal `&lt;` typed by the user and a
   * real `<` escape to the same markup.
   */
  lemma AmpersandCollision()
    ensures EscapeHtml("&lt;") == EscapeHtml("<") == "&lt;"
  {
    EscapeHtmlIsPerCharacter("&lt;");
    EscapeHtmlIsPerCharacter("<");
    assert EscapeEach("<") == "&lt;";
    assert EscapeEach("&lt;") == "&" + EscapeEach("lt;");
    assert EscapeEach("lt;") == "l" + EscapeEach("t;");
    assert EscapeEach("t;") == "t" + EscapeEach(";");
  }

  /** The filler line break `resize` writes for each line terminator. */
  const LineBreak: string := "<br/>A"

  /**
   * `.replace(/\n|\r\n/g, '<br/>A')`: scanning left to right, a `\n`, or a
   * `\r` directly followed by `\n`, becomes a break tag and one filler glyph;
   * a lone `\r` is kept.
   */
  function BreakLines(s: string): (r: string)
    ensures '\n' !in r
    ensures forall x :: x in r ==> x in s || x in LineBreak
    decreases |s|
  {
    if s == [] then []
    else if s[0] == '\n' then LineBreak + BreakLines(s[1..])
    else if s[0] == '\r' && |s| >= 2 && s[1] == '\n' then LineBreak + BreakLines(s[2..])
    else [s[0]] + BreakLines(s[1..])
  }

  /** Reference definition: every `\r\n` pair becomes a single `\n`. */
  function NormalizeNewlines(s: string): (r: string)
    ensures forall x :: x in r ==> x in s
    decreases |s|
  {
    if s == [] then []
    else if s[0] == '\r' && |s| >= 2 && s[1] == '\n' then "\n" + NormalizeNewlines(s[2..])
    else [s[0]] + NormalizeNewlines(s[1..])
  }

  /** Turns every inserted break-and-filler back into `\n`. */
  function UnbreakLines(h: string): string
    decreases |h|
  {
    if h == [] then []
    else if |h| >= |LineBreak| && h[..|LineBreak|] == LineBreak then "\n" + UnbreakLines(h[|LineBreak|..])
    else [h[0]] + UnbreakLines(h[1..])
  }

  /**
   * On escaped text (which holds no `<`), the inserted breaks are the only
   * `<br/>A` in the result, so they can be read back: each line terminator,
   * `\n` or `\r\n`, comes back as one `\n`.
   */
  lemma {:induction false} UnbreakBreakLines(s: string)
    requires '<' !in s
    ensures UnbreakLines(BreakLines(s)) == NormalizeNewlines(s)
    decreases |s|
  {
    if s != [] {
      var h := BreakLines(s);
      if s[0] == '\n' {
        assert h[..|LineBreak|] == LineBreak && h[|LineBreak|..] == BreakLines(s[1..]);
        assert '<' !in s[1..];
        UnbreakBreakLines(s[1..]);
        assert NormalizeNewlines(s) == [s[0]] + NormalizeNewlines(s[1..]);
      } else if s[0] == '\r' && |s| >= 2 && s[1] == '\n' {
        assert h[..|LineBreak|] == LineBreak && h[|LineBreak|..] == BreakLines(s[2..]);
        assert '<' !in s[2..];
        UnbreakBreakLines(s[2..]);
      } else {
        assert h[0] == s[0] && h[1..] == BreakLines(s[1..]);
        assert |h| >= |LineBreak| ==> h[..|LineBreak|][0] == s[0] != '<';
        assert '<' !in s[1..];
        UnbreakBreakLines(s[1..]);
      }
    }
  }

  lemma {:induction false} NormalizeAfterPlain(a: string, b: string)
    requires '\r' !in a
    ensures NormalizeNewlines(a + b) == a + NormalizeNewlines(b)
  {
    if a != [] {
      assert (a + b)[0] == a[0] && (a + b)[1..] == a[1..] + b;
      assert '\r' !in a[1..];
      NormalizeAfterPlain(a[1..], b);
      assert a == [a[0]] + a[1..];
    } else {
      assert a + b == b;
    }
  }

  /** Escaping and `\r\n` normalisation commute: escaping never touches `\r` or `\n`. */
  lemma {:induction false} NormalizeEscapeCommute(s: string)
    ensures NormalizeNewlines(EscapeEach(s)) == EscapeEach(NormalizeNewlines(s))
    decreases |s|
  {
    if s != [] {
      var c, t := s[0], s[1..];
      assert EscapeEach(s) == EscapeChar(c) + EscapeEach(t);
      if c == '\r' && |t| > 0 && t[0] == '\n' {
        assert EscapeEach(t) == "\n" + EscapeEach(t[1..]);
        assert EscapeEach(s) == "\r\n" + EscapeEach(t[1..]);
        assert (EscapeEach(s))[2..] == EscapeEach(t[1..]);
        NormalizeEscapeCommute(t[1..]);
        assert s[2..] == t[1..];
        var n := NormalizeNewlines(s[2..]);
        assert NormalizeNewlines(s) == "\n" + n;
        assert ("\n" + n)[0] == '\n' && ("\n" + n)[1..] == n;
      } else if c == '\r' {
        var e := EscapeEach(s);
        assert e == "\r" + EscapeEach(t);
        if |t| > 0 {
          assert EscapeEach(t) == EscapeChar(t[0]) + EscapeEach(t[1..]);
          assert e[1] == EscapeChar(t[0])[0] != '\n';
        }
        assert e[1..] == EscapeEach(t);
        NormalizeEscapeCommute(t);
        var n := NormalizeNewlines(t);
        assert NormalizeNewlines(s) == "\r" + n;
        assert ("\r" + n)[0] == '\r' && ("\r" + n)[1..] == n;
      } else {
        NormalizeAfterPlain(EscapeChar(c), EscapeEach(t));
        NormalizeEscapeCommute(t);
        var n := NormalizeNewlines(t);
        assert NormalizeNewlines(s) == [c] + n;
        assert ([c] + n)[0] == c && ([c] + n)[1..] == n;
      }
    }
  }

  /** The markup `resize` writes into the mirror for a textarea value. */
  function Transform(value: string): (html: string)
    ensures '\n' !in html && '"' !in html
  {
    BreakLines(EscapeHtml(value))
  }

  /** Reads a mirror's markup back as text. */
  function Decode(html: string): string
  {
    Unescape(UnbreakLines(html))
  }

  /**
   * For a value without `&`, the mirror markup determines the value up to the
   * spelling of its line terminators.
   */
  lemma TransformRoundTrip(value: string)
    requires '&' !in value
    ensures Decode(Transform(value)) == NormalizeNewlines(value)
  {
    EscapeHtmlIsPerCharacter(value);
    var e := EscapeEach(value);
    UnbreakBreakLines(e);
    NormalizeEscapeCommute(value);
    UnescapeEscape(NormalizeNewlines(value));
  }

  /** `\n` and `\r\n` are the same line break to the mirror; a lone `\r` is not one. */
  lemma LineTerminators()
    ensures Transform("\n") == Transform("\r\n") == LineBreak
    ensures Transform("\r") == "\r"
  {
  }
}
