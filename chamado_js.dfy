/** The helpers of the ticket page script (src/static/js/chamado.js) that the
    preview relies on: HTML escaping, the `(vazio)` fallback and the default
    quantity. */
module ChamadoScript {
  import opened Common

  /** The characters `escapeHtml` replaces. */
  predicate Special(c: char) {
    c == '&' || c == '<' || c == '>' || c == '"' || c == '\''
  }

  /** The characters that must not reach the page unescaped. */
  predicate Markup(c: char) {
    c == '<' || c == '>' || c == '"' || c == '\''
  }

  /** The map of `escapeHtml`; any other character stands for itself. */
  function Entity(c: char): string {
    if c == '&' then "&amp;"
    else if c == '<' then "&lt;"
    else if c == '>' then "&gt;"
    else if c == '"' then "&quot;"
    else if c == '\'' then "&#039;"
    else [c]
  }

  /** `text.replace(/[&<>"']/g, m => map[m])`: one left-to-right pass, each
      character replaced by its entry. */
  function EscapeHtml(text: string): string
    decreases |text|
  {
    if text == [] then [] else Entity(text[0]) + EscapeHtml(text[1..])
  }

  predicate StartsWith(s: string, p: string) {
    |p| <= |s| && s[..|p|] == p
  }

  /** What the browser shows for escaped text: the five entities are read
      back as their characters. */
  function Unescape(s: string): string
    decreases |s|
  {
    if s == [] then []
    else if s[0] != '&' then [s[0]] + Unescape(s[1..])
    else if StartsWith(s, "&amp;") then "&" + Unescape(s[5..])
    else if StartsWith(s, "&lt;") then "<" + Unescape(s[4..])
    else if StartsWith(s, "&gt;") then ">" + Unescape(s[4..])
    else if StartsWith(s, "&quot;") then "\"" + Unescape(s[6..])
    else if StartsWith(s, "&#039;") then "'" + Unescape(s[6..])
    else [s[0]] + Unescape(s[1..])
  }

  /** Escaping works character by character: it distributes over
      concatenation. */
  lemma {:induction false} EscapeHtmlAppend(a: string, b: string)
    ensures EscapeHtml(a + b) == EscapeHtml(a) + EscapeHtml(b)
    decreases |a|
  {
    if a == [] {
      assert a + b == b;
    } else {
      assert (a + b)[1..] == a[1..] + b;
      EscapeHtmlAppend(a[1..], b);
    }
  }

  /** The escaped text holds no `<`, `>`, `"` or `'`. */
  lemma {:induction false} EscapeHtmlSafe(text: string)
    ensures forall i :: 0 <= i < |EscapeHtml(text)| ==> !Markup(EscapeHtml(text)[i])
    decreases |text|
  {
    if text != [] {
      EscapeHtmlSafe(text[1..]);
      var e := Entity(text[0]);
      assert forall i :: 0 <= i < |e| ==> !Markup(e[i]);
    }
  }

  /** Every other character is kept, in order: text with none of the five
      characters comes back unchanged. */
  lemma {:induction false} EscapeHtmlPlain(text: string)
    requires forall i :: 0 <= i < |text| ==> !Special(text[i])
    ensures EscapeHtml(text) == text
    decreases |text|
  {
    if text != [] {
      EscapeHtmlPlain(text[1..]);
      assert text == [text[0]] + text[1..];
    }
  }

  /** Reading back one of the four entities that do not start with `&a`. */
  lemma UnescapeOne(c: char, e: string, rest: string)
    requires e == Entity(c) && c != '&' && Special(c)
    ensures Unescape(e + rest) == [c] + Unescape(rest)
  {
    var s := e + rest;
    assert s[0] == '&' && !StartsWith(s, "&amp;") by {
      assert s[1] == e[1] && e[1] != 'a';
    }
    assert s[|e|..] == rest;
    if c == '<' {
      assert s[..4] == e;
    } else if c == '>' {
      assert s[..4] == e && s[1] == 'g';
    } else if c == '"' {
      assert s[..6] == e && s[1] == 'q';
    } else {
      assert s[..6] == e && s[1] == '#';
    }
  }

  lemma UnescapeEntity(c: char, rest: string)
    ensures Unescape(Entity(c) + rest) == [c] + Unescape(rest)
  {
    var s := Entity(c) + rest;
    if c == '&' {
      assert s[..5] == "&amp;" && s[5..] == rest;
    } else if Special(c) {
      UnescapeOne(c, Entity(c), rest);
    } else {
      assert s[0] == c && s[1..] == rest;
    }
  }

  /** Single pass: the `&` of an inserted entity is not escaped again, so
      the page shows exactly the original text. */
  lemma {:induction false} EscapeHtmlRoundTrip(text: string)
    ensures Unescape(EscapeHtml(text)) == text
    decreases |text|
  {
    if text != [] {
      EscapeHtmlRoundTrip(text[1..]);
      UnescapeEntity(text[0], EscapeHtml(text[1..]));
      assert text == [text[0]] + text[1..];
    }
  }

  /** `"<"` becomes `"&lt;"`, not `"&amp;lt;"`. */
  lemma EscapeLessThan()
    ensures EscapeHtml("<") == "&lt;" && EscapeHtml("<") != "&amp;lt;"
  {
    assert "<"[1..] == [];
  }

  /** `item.titulo || '(vazio)'` */
  function DisplayText(s: string): string {
    if s == "" then "(vazio)" else s
  }

  /** The preview shows `(vazio)` for an empty text and the text itself
      otherwise. */
  lemma DisplayTextShown(s: string)
    ensures Unescape(EscapeHtml(DisplayText(s))) == if s == "" then "(vazio)" else s
  {
    EscapeHtmlRoundTrip(DisplayText(s));
  }

  /** `parseInt(field) || 5`, given what `parseInt` returned (`None` for
      `NaN`): `NaN` and `0` fall back to 5, any other number, negative ones
      included, is kept. */
  function QtdChamados(parsed: Option<int>): (q: int)
    ensures q != 0
    ensures parsed.None? || parsed == Some(0) ==> q == 5
    ensures parsed.Some? && parsed.value != 0 ==> q == parsed.value
  {
    match parsed
    case None => 5
    case Some(n) => if n == 0 then 5 else n
  }
}
