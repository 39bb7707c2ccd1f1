/** The string encoder of the page objects: five global replacements, one after the other. */
module HtmlEncoding {

  function Replace(s: string, c: char, w: string): string {
    if s == "" then "" else (if s[0] == c then w else [s[0]]) + Replace(s[1..], c, w)
  }

  function AsEncodedHTML(str: string): string {
    Replace(Replace(Replace(Replace(Replace(str, '&', "&amp;"), '<', "&lt;"), '>', "&gt;"), '"', "&quot;"),
            ' ', "&nbsp;")
  }

  /** The character reference of a character, or the character itself. */
  function Entity(c: char): string {
    if c == '&' then "&amp;"
    else if c == '<' then "&lt;"
    else if c == '>' then "&gt;"
    else if c == '"' then "&quot;"
    else if c == ' ' then "&nbsp;"
    else [c]
  }

  /** All replacements at once, character by character. */
  function Encode(s: string): string {
    if s == "" then "" else Entity(s[0]) + Encode(s[1..])
  }

  lemma {:induction false} ReplaceConcat(a: string, b: string, c: char, w: string)
    ensures Replace(a + b, c, w) == Replace(a, c, w) + Replace(b, c, w)
  {
    if a == "" {
      assert a + b == b;
    } else {
      assert (a + b)[1..] == a[1..] + b;
      ReplaceConcat(a[1..], b, c, w);
    }
  }

  /** A text without the character is left alone. */
  lemma {:induction false} ReplaceNone(s: string, c: char, w: string)
    requires c !in s
    ensures Replace(s, c, w) == s
  {
    if s != "" {
      ReplaceNone(s[1..], c, w);
    }
  }

  /** The sequential encoding distributes over concatenation. */
  lemma EncodedConcat(a: string, b: string)
    ensures AsEncodedHTML(a + b) == AsEncodedHTML(a) + AsEncodedHTML(b)
  {
    ReplaceConcat(a, b, '&', "&amp;");
    var a1, b1 := Replace(a, '&', "&amp;"), Replace(b, '&', "&amp;");
    ReplaceConcat(a1, b1, '<', "&lt;");
    var a2, b2 := Replace(a1, '<', "&lt;"), Replace(b1, '<', "&lt;");
    ReplaceConcat(a2, b2, '>', "&gt;");
    var a3, b3 := Replace(a2, '>', "&gt;"), Replace(b2, '>', "&gt;");
    ReplaceConcat(a3, b3, '"', "&quot;");
    ReplaceConcat(Replace(a3, '"', "&quot;"), Replace(b3, '"', "&quot;"), ' ', "&nbsp;");
  }

  lemma ReplaceChar(c: char, d: char, w: string)
    ensures Replace([c], d, w) == if c == d then w else [c]
  {
    assert [c][1..] == "";
    assert Replace("", d, w) == "";
    assert w + "" == w;
  }

  /** One character is encoded once: no later replacement touches an entity written by an earlier one. */
  lemma EncodedChar(c: char)
    ensures AsEncodedHTML([c]) == Entity(c)
  {
    if c == '&' {
      ReplaceChar(c, '&', "&amp;");
      LaterStages("&amp;", c, "&lt;", "&gt;", "&quot;", "&nbsp;");
    } else {
      ReplaceNone([c], '&', "&amp;");
      LaterStages([c], c, "&lt;", "&gt;", "&quot;", "&nbsp;");
    }
  }

  /** The five references; every other character stands for itself. */
  lemma References(c: char)
    ensures AsEncodedHTML([c])
         == match c
            case '&' => "&amp;"
            case '<' => "&lt;"
            case '>' => "&gt;"
            case '"' => "&quot;"
            case ' ' => "&nbsp;"
            case _ => [c]
  {
    EncodedChar(c);
  }

  /** None of the characters replaced after the ampersand. */
  ghost predicate Plain(s: string) {
    '<' !in s && '>' !in s && '"' !in s && ' ' !in s
  }

  /** The four replacements after the ampersand's, on a single character or on a text they leave alone. */
  lemma LaterStages(s: string, c: char, lt: string, gt: string, quot: string, nbsp: string)
    requires s == [c] || Plain(s)
    requires Plain(lt) && Plain(gt) && Plain(quot)
    ensures Replace(Replace(Replace(Replace(s, '<', lt), '>', gt), '"', quot), ' ', nbsp)
         == if Plain(s) then s else if c == '<' then lt else if c == '>' then gt else if c == '"' then quot else nbsp
  {
    var s2 := if c == '<' && !Plain(s) then lt else s;
    ReplaceIn(s, c, '<', lt);
    ReplaceIn(s2, c, '>', gt);
    var s3 := if c == '>' && !Plain(s) then gt else s2;
    ReplaceIn(s3, c, '"', quot);
    var s4 := if c == '"' && !Plain(s) then quot else s3;
    ReplaceIn(s4, c, ' ', nbsp);
  }

  lemma ReplaceIn(s: string, c: char, d: char, w: string)
    requires s == [c] || d !in s
    ensures Replace(s, d, w) == if d in s then w else s
  {
    if d in s {
      ReplaceChar(c, d, w);
    } else {
      ReplaceNone(s, d, w);
    }
  }

  /** The five replacements in sequence are one simultaneous encoding. */
  lemma {:induction false} SequentialIsSimultaneous(s: string)
    ensures AsEncodedHTML(s) == Encode(s)
  {
    if s != "" {
      EncodedChar(s[0]);
      SequentialIsSimultaneous(s[1..]);
      EncodedConcat([s[0]], s[1..]);
      assert [s[0]] + s[1..] == s;
    }
  }

  /** Reads the five character references back. */
  function Decode(s: string): string {
    if s == "" then ""
    else if "&amp;" <= s then "&" + Decode(s[5..])
    else if "&lt;" <= s then "<" + Decode(s[4..])
    else if "&gt;" <= s then ">" + Decode(s[4..])
    else if "&quot;" <= s then "\"" + Decode(s[6..])
    else if "&nbsp;" <= s then " " + Decode(s[6..])
    else [s[0]] + Decode(s[1..])
  }

  /** The five references are told apart by their second characters, or the third. */
  lemma DecodeReference(c: char, s: string, rest: string)
    requires c == '&' || c == '<' || c == '>' || c == '"' || c == ' '
    requires s == Entity(c) + rest
    ensures Decode(s) == [c] + Decode(rest)
  {
    assert Entity(c) <= s && s[|Entity(c)|..] == rest;
    assert s[1] == Entity(c)[1];
  }

  lemma DecodeEntity(c: char, rest: string)
    ensures Decode(Entity(c) + rest) == [c] + Decode(rest)
  {
    var s := Entity(c) + rest;
    if c == '&' || c == '<' || c == '>' || c == '"' || c == ' ' {
      DecodeReference(c, s, rest);
    } else {
      assert s[0] == c && s[1..] == rest;
    }
  }

  lemma {:induction false} DecodeEncode(s: string)
    ensures Decode(Encode(s)) == s
  {
    if s != "" {
      DecodeEntity(s[0], Encode(s[1..]));
      DecodeEncode(s[1..]);
    }
  }

  /** Encoding loses nothing: it can be decoded, so different texts have different encodings. */
  lemma EncodingIsInjective(a: string, b: string)
    ensures Decode(AsEncodedHTML(a)) == a
    ensures AsEncodedHTML(a) == AsEncodedHTML(b) ==> a == b
  {
    SequentialIsSimultaneous(a);
    SequentialIsSimultaneous(b);
    DecodeEncode(a);
    DecodeEncode(b);
  }
}
