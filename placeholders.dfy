/** Placeholder resolution of abrir_chamados.py: the tokens `<LETTERS>` that
    `re.findall(r'<([A-Z]+)>', texto.upper())` finds, the case-insensitive
    `re.sub` that replaces one token by a column value, and the left fold of
    those substitutions that `substituir_placeholders` performs. */
module Placeholders {
  import opened Common

  // ---------------------------------------------------------------------------
  // Token scanning: re.findall(r'<([A-Z]+)>', u)

  /** Length of the greedy run `[A-Z]+` at the start of `s` (0 when there is none). */
  function LetterRun(s: string): (n: nat)
    ensures n <= |s|
    ensures forall i :: 0 <= i < n ==> IsUpperLetter(s[i])
    ensures n < |s| ==> !IsUpperLetter(s[n])
    decreases |s|
  {
    if |s| > 0 && IsUpperLetter(s[0]) then 1 + LetterRun(s[1..]) else 0
  }

  /** The pattern `<([A-Z]+)>` matches at the start of `s`. Backtracking the
      letter run cannot help, since `>` is not a letter. */
  predicate TokenAt(s: string) {
    |s| > 0 && s[0] == '<' &&
    var n := LetterRun(s[1..]);
    n > 0 && n + 1 < |s| && s[n + 1] == '>'
  }

  /** The groups of all non-overlapping matches, left to right, as findall
      returns them (duplicates kept). */
  function FindTokens(s: string): (ts: seq<string>)
    decreases |s|
  {
    if s == [] then []
    else if TokenAt(s) then
      var n := LetterRun(s[1..]);
      [s[1..n + 1]] + FindTokens(s[n + 2..])
    else FindTokens(s[1..])
  }

  /** The placeholder text for a letter sequence. */
  function Token(letters: string): string {
    "<" + letters + ">"
  }

  predicate NoToken(s: string) {
    forall k :: 0 <= k < |s| ==> !TokenAt(s[k..])
  }

  /** findall finds nothing exactly when the pattern matches nowhere. */
  lemma {:induction false} FindTokensEmpty(s: string)
    ensures FindTokens(s) == [] <==> NoToken(s)
    decreases |s|
  {
    if s != [] {
      assert s[0..] == s;
    }
    if s != [] && !TokenAt(s) {
      FindTokensEmpty(s[1..]);
      if NoToken(s[1..]) {
        forall k | 0 < k < |s| ensures !TokenAt(s[k..]) {
          assert s[k..] == s[1..][k - 1..];
        }
      } else {
        var k :| 0 <= k < |s[1..]| && TokenAt(s[1..][k..]);
        assert s[1..][k..] == s[k + 1..];
      }
    }
  }

  /** `w` occurs in `s` at position `k`. */
  predicate OccursAt(s: string, k: nat, w: string) {
    k + |w| <= |s| && s[k..k + |w|] == w
  }

  /** Every group findall returns is a non-empty run of capital letters whose
      token occurs in the scanned text. */
  lemma {:induction false} FindTokensSound(s: string, j: nat)
    requires j < |FindTokens(s)|
    ensures |FindTokens(s)[j]| > 0 && AllUpperLetters(FindTokens(s)[j])
    ensures exists k :: OccursAt(s, k, Token(FindTokens(s)[j]))
    decreases |s|
  {
    var ts := FindTokens(s);
    if TokenAt(s) {
      var n := LetterRun(s[1..]);
      if j == 0 {
        assert ts[0] == s[1..n + 1];
        assert s[0..n + 2] == Token(ts[0]);
        assert OccursAt(s, 0, Token(ts[0]));
      } else {
        FindTokensSound(s[n + 2..], j - 1);
        assert ts[j] == FindTokens(s[n + 2..])[j - 1];
        OccursShift(s, n + 2, Token(ts[j]));
      }
    } else {
      FindTokensSound(s[1..], j);
      OccursShift(s, 1, Token(ts[j]));
    }
  }

  /** An occurrence in a suffix is an occurrence in the whole text. */
  lemma OccursShift(s: string, d: nat, w: string)
    requires d <= |s| && exists k :: OccursAt(s[d..], k, w)
    ensures exists k :: OccursAt(s, k, w)
  {
    var k: nat :| OccursAt(s[d..], k, w);
    assert s[d + k..d + k + |w|] == s[d..][k..k + |w|];
    assert OccursAt(s, d + k, w);
  }

  lemma {:induction false} LetterRunAppend(l: string, rest: string)
    requires AllUpperLetters(l)
    ensures LetterRun(l + rest) == |l| + LetterRun(rest)
    decreases |l|
  {
    if l == [] {
      assert l + rest == rest;
    } else {
      assert (l + rest)[0] == l[0];
      assert (l + rest)[1..] == l[1..] + rest;
      LetterRunAppend(l[1..], rest);
    }
  }

  /** Text without `<` contributes no token and does not disturb the scan of
      what follows it. */
  lemma {:induction false} FindTokensSkipsPlain(x: string, y: string)
    requires '<' !in x
    ensures FindTokens(x + y) == FindTokens(y)
    decreases |x|
  {
    if x == [] {
      assert x + y == y;
    } else {
      assert x[0] in x;
      assert (x + y)[0] == x[0];
      assert (x + y)[1..] == x[1..] + y;
      FindTokensSkipsPlain(x[1..], y);
    }
  }

  /** A token of capital letters at the front is found whole. */
  lemma FindTokensToken(l: string, y: string)
    requires |l| > 0 && AllUpperLetters(l)
    ensures FindTokens(Token(l) + y) == [l] + FindTokens(y)
  {
    var s := Token(l) + y;
    assert s[1..] == l + (">" + y);
    LetterRunAppend(l, ">" + y);
    assert LetterRun(">" + y) == 0;
    assert TokenAt(s);
    assert s[1..|l| + 1] == l;
    assert s[|l| + 2..] == y;
  }

  // ---------------------------------------------------------------------------
  // re.sub(f'<{letra}>', valor, texto, flags=re.IGNORECASE)

  /** `p` matches at the start of `t`, ignoring ASCII letter case. */
  predicate MatchesAt(t: string, p: string) {
    |p| <= |t| && forall i :: 0 <= i < |p| ==> LowerChar(t[i]) == LowerChar(p[i])
  }

  /** Replaces every non-overlapping case-insensitive occurrence of `p`,
      scanning left to right. A backslash in the replacement would be read by
      re.sub as an escape, which is not modelled. */
  function ReplaceAll(t: string, p: string, v: string): string
    requires |p| > 0 && '\\' !in v
    decreases |t|
  {
    if t == [] then []
    else if MatchesAt(t, p) then v + ReplaceAll(t[|p|..], p, v)
    else [t[0]] + ReplaceAll(t[1..], p, v)
  }

  /** Text in front of the first occurrence is copied unchanged. */
  lemma {:induction false} ReplaceAllSkips(t: string, p: string, v: string, k: nat)
    requires |p| > 0 && '\\' !in v && k <= |t|
    requires forall j :: 0 <= j < k ==> !MatchesAt(t[j..], p)
    ensures ReplaceAll(t, p, v) == t[..k] + ReplaceAll(t[k..], p, v)
    decreases k
  {
    if k > 0 {
      assert t[0..] == t;
      assert ReplaceAll(t, p, v) == [t[0]] + ReplaceAll(t[1..], p, v);
      forall j | 0 <= j < k - 1 ensures !MatchesAt(t[1..][j..], p) {
        assert t[1..][j..] == t[j + 1..];
      }
      ReplaceAllSkips(t[1..], p, v, k - 1);
      assert t[1..][k - 1..] == t[k..];
      assert t[..k] == [t[0]] + t[1..][..k - 1];
    }
  }

  /** Where `p` occurs nowhere, the text is returned unchanged. */
  lemma ReplaceAllNoMatch(t: string, p: string, v: string)
    requires |p| > 0 && '\\' !in v
    requires forall j :: 0 <= j < |t| ==> !MatchesAt(t[j..], p)
    ensures ReplaceAll(t, p, v) == t
  {
    ReplaceAllSkips(t, p, v, |t|);
    assert t[..|t|] == t;
  }

  /** The first occurrence is replaced by `v` and the scan resumes after it. */
  lemma ReplaceAllFirstMatch(t: string, p: string, v: string, k: nat)
    requires |p| > 0 && '\\' !in v && k <= |t|
    requires forall j :: 0 <= j < k ==> !MatchesAt(t[j..], p)
    requires MatchesAt(t[k..], p)
    ensures ReplaceAll(t, p, v) == t[..k] + v + ReplaceAll(t[k + |p|..], p, v)
  {
    ReplaceAllSkips(t, p, v, k);
    ReplaceAllAtMatch(t[k..], p, v);
    assert t[k..][|p|..] == t[k + |p|..];
  }

  lemma ReplaceAllAtMatch(u: string, p: string, v: string)
    requires |p| > 0 && '\\' !in v && MatchesAt(u, p)
    ensures ReplaceAll(u, p, v) == v + ReplaceAll(u[|p|..], p, v)
  {
  }

  /** Substituting `<X>` leaves a longer token such as `<XY>` alone, because
      the pattern needs `>` right after the letters. */
  lemma LongerTokenUntouched(l: string, m: string, v: string)
    requires |l| > 0 && |m| > 0 && AllUpperLetters(l) && AllUpperLetters(m) && '\\' !in v
    ensures ReplaceAll(Token(l + m), Token(l), v) == Token(l + m)
  {
    var t := Token(l + m);
    forall j | 0 <= j < |t| ensures !MatchesAt(t[j..], Token(l)) {
      if j == 0 {
        // after the letters of `l` the text goes on with a letter of `m`, not `>`
        assert t[|l| + 1] == m[0] && Token(l)[|l| + 1] == '>';
        assert LowerChar(t[j..][|l| + 1]) != LowerChar(Token(l)[|l| + 1]);
      } else {
        // only position 0 holds `<`
        assert t[j] != '<' by {
          if j <= |l| { assert t[j] == l[j - 1]; }
          else if j <= |l| + |m| { assert t[j] == m[j - |l| - 1]; }
        }
        assert LowerChar(t[j..][0]) != LowerChar(Token(l)[0]);
      }
    }
    ReplaceAllNoMatch(t, Token(l), v);
  }

  // ---------------------------------------------------------------------------
  // substituir_placeholders

  /** One iteration of the loop: look the lower-cased letters up in the row;
      replace the token when the column is present, otherwise leave the text
      (the source only logs a warning). */
  function Substitute(text: string, letters: string, row: Row): string
    requires PlainRow(row)
  {
    var key := Lower(letters);
    if key in row then ReplaceAll(text, Token(letters), row[key]) else text
  }

  /** The loop over the found tokens, in order, each acting on the text the
      previous ones produced. */
  function ApplyTokens(text: string, tokens: seq<string>, row: Row): string
    requires PlainRow(row)
    decreases |tokens|
  {
    if tokens == [] then text
    else ApplyTokens(Substitute(text, tokens[0], row), tokens[1..], row)
  }

  /** The whole of substituir_placeholders on one row. */
  function Resolve(text: string, row: Row): string
    requires PlainRow(row)
  {
    if text == "" then text else ApplyTokens(text, FindTokens(Upper(text)), row)
  }

  /** A template with no `<[A-Z]+>` after upper-casing comes back unchanged
      (and so does the empty template). */
  lemma ResolveNoToken(text: string, row: Row)
    requires PlainRow(row)
    requires NoToken(Upper(text))
    ensures Resolve(text, row) == text
  {
    FindTokensEmpty(Upper(text));
  }

  lemma {:induction false} ApplyUnknownTokens(text: string, tokens: seq<string>, row: Row)
    requires PlainRow(row)
    requires forall j :: 0 <= j < |tokens| ==> Lower(tokens[j]) !in row
    ensures ApplyTokens(text, tokens, row) == text
    decreases |tokens|
  {
    if tokens != [] {
      ApplyUnknownTokens(text, tokens[1..], row);
    }
  }

  /** Tokens whose columns the row lacks are left verbatim, in their original
      case; this is not an error. */
  lemma ResolveUnknownColumns(text: string, row: Row)
    requires PlainRow(row)
    requires forall L :: L in FindTokens(Upper(text)) ==> Lower(L) !in row
    ensures Resolve(text, row) == text
  {
    if text != "" {
      var ts := FindTokens(Upper(text));
      forall j | 0 <= j < |ts| ensures Lower(ts[j]) !in row {
        assert ts[j] in ts;
      }
      ApplyUnknownTokens(text, ts, row);
    }
  }

  predicate IsAsciiLetter(c: char) { IsUpperLetter(c) || IsLowerLetter(c) }

  lemma UpperAppend(x: string, y: string)
    ensures Upper(x + y) == Upper(x) + Upper(y)
  {
    assert forall i :: 0 <= i < |x + y| ==> Upper(x + y)[i] == (Upper(x) + Upper(y))[i];
  }

  lemma NoAngleUpper(x: string)
    requires '<' !in x
    ensures '<' !in Upper(x)
  {
    forall i | 0 <= i < |x| ensures Upper(x)[i] != '<' {
      assert x[i] in x;
    }
  }

  /** No `<` means no case-insensitive occurrence of a token can start there. */
  lemma NoAngleNoMatch(x: string, y: string, p: string)
    requires '<' !in x && |p| > 0 && p[0] == '<'
    ensures forall j :: 0 <= j < |x| ==> !MatchesAt((x + y)[j..], p)
  {
    forall j | 0 <= j < |x| ensures !MatchesAt((x + y)[j..], p) {
      assert x[j] in x;
      assert (x + y)[j..][0] == x[j];
      assert LowerChar((x + y)[j..][0]) != LowerChar(p[0]);
    }
  }

  predicate AsciiLetters(l: string) {
    |l| > 0 && forall i :: 0 <= i < |l| ==> IsAsciiLetter(l[i])
  }

  /** The scan of an upper-cased single-placeholder template finds exactly
      that placeholder's letters. */
  lemma FindTokensSingle(a: string, l: string, b: string)
    requires AsciiLetters(l) && '<' !in a && '<' !in b
    ensures FindTokens(Upper(a + Token(l) + b)) == [Upper(l)]
  {
    var U := Upper(l);
    assert AllUpperLetters(U);
    assert Upper(Token(l)) == Token(U) by {
      UpperAppend("<", l);
      UpperAppend("<" + l, ">");
    }
    assert Upper(a + Token(l) + b) == Upper(a) + (Token(U) + Upper(b)) by {
      UpperAppend(a, Token(l));
      UpperAppend(a + Token(l), b);
    }
    NoAngleUpper(a);
    NoAngleUpper(b);
    FindTokensSkipsPlain(Upper(a), Token(U) + Upper(b));
    FindTokensToken(U, Upper(b));
    FindTokensSkipsPlain(Upper(b), []);
    assert Upper(b) + [] == Upper(b);
  }

  /** re.sub of the upper-case form of a placeholder replaces its one
      occurrence, whatever the case it was written in. */
  lemma ReplaceSingle(a: string, l: string, b: string, v: string)
    requires AsciiLetters(l) && '<' !in a && '<' !in b && '\\' !in v
    ensures ReplaceAll(a + Token(l) + b, Token(Upper(l)), v) == a + v + b
  {
    var t := a + Token(l) + b;
    var p := Token(Upper(l));
    assert t == a + (Token(l) + b);
    NoAngleNoMatch(a, Token(l) + b, p);
    assert t[|a|..] == Token(l) + b;
    TokenMatchesUpper(l, b);
    ReplaceAllFirstMatch(t, p, v, |a|);
    assert t[..|a|] == a;
    assert t[|a| + |p|..] == b;
    NoAngleNoMatch(b, [], p);
    assert b + [] == b;
    ReplaceAllNoMatch(b, p, v);
  }

  /** A placeholder written in any letter case matches the upper-case form. */
  lemma TokenMatchesUpper(l: string, b: string)
    requires AsciiLetters(l)
    ensures MatchesAt(Token(l) + b, Token(Upper(l)))
  {
    var t := Token(l) + b;
    var p := Token(Upper(l));
    forall i | 0 <= i < |p| ensures LowerChar(t[i]) == LowerChar(p[i]) {
      if 0 < i < |p| - 1 {
        assert t[i] == l[i - 1] && p[i] == UpperChar(l[i - 1]);
      }
    }
  }

  /** A template with a single placeholder, written in any letter case,
      between plain text: it resolves to the column's value in place of the
      placeholder when the column exists, and to itself otherwise. */
  lemma ResolveSingleToken(a: string, l: string, b: string, row: Row)
    requires PlainRow(row)
    requires AsciiLetters(l) && '<' !in a && '<' !in b
    ensures Lower(l) in row ==> Resolve(a + Token(l) + b, row) == a + row[Lower(l)] + b
    ensures Lower(l) !in row ==> Resolve(a + Token(l) + b, row) == a + Token(l) + b
  {
    var t := a + Token(l) + b;
    var U := Upper(l);
    FindTokensSingle(a, l, b);
    assert Lower(U) == Lower(l) by {
      assert forall i :: 0 <= i < |l| ==> LowerChar(UpperChar(l[i])) == LowerChar(l[i]);
    }
    assert t != "" && [U][1..] == [] && [U][0] == U;
    assert Resolve(t, row) == ApplyTokens(t, [U], row);
    assert ApplyTokens(t, [U], row) == ApplyTokens(Substitute(t, U, row), [], row);
    if Lower(l) in row {
      ReplaceSingle(a, l, b, row[Lower(l)]);
    }
  }

  lemma ChainTokens()
    ensures FindTokens(Upper("<A> <B>")) == ["A", "B"]
  {
    assert Upper("<A> <B>") == Token("A") + (" " + (Token("B") + ""));
    FindTokensToken("B", "");
    FindTokensSkipsPlain(" ", Token("B") + "");
    FindTokensToken("A", " " + (Token("B") + ""));
  }

  lemma ChainFirstStep(t: string, row: Row)
    requires t == "<A> <B>" && row == map["a" := "<B>", "b" := "x"]
    ensures PlainRow(row) && Substitute(t, "A", row) == "<B> <B>"
  {
    assert Lower("A") == "a" && Token("A") == "<A>";
    var w := t[3..];
    assert w == " <B>";
    assert MatchesAt(t, "<A>");
    ReplaceAllAtMatch(t, "<A>", "<B>");
    OtherTokenNoMatch(w);
    ReplaceAllNoMatch(w, "<A>", "<B>");
  }

  /** `<A>` occurs nowhere in ` <B>`. */
  lemma OtherTokenNoMatch(w: string)
    requires w == " <B>"
    ensures forall j :: 0 <= j < |w| ==> !MatchesAt(w[j..], "<A>")
  {
    forall j | 0 <= j < |w| ensures !MatchesAt(w[j..], "<A>") {
      if j == 1 {
        assert LowerChar(w[1..][1]) != LowerChar('A');
      } else {
        assert LowerChar(w[j..][0]) != LowerChar('<');
      }
    }
  }

  lemma ChainSecondStep(u: string, row: Row)
    requires u == "<B> <B>" && row == map["a" := "<B>", "b" := "x"]
    ensures PlainRow(row) && Substitute(u, "B", row) == "x x"
  {
    assert Lower("B") == "b" && "b" in row && row["b"] == "x";
    assert Token("B") == "<B>";
    assert MatchesAt(u, "<B>");
    ReplaceAllFirstMatch(u, "<B>", "x", 0);
    var w := u[3..];
    assert LowerChar(w[0]) != LowerChar('<');
    assert MatchesAt(w[1..], "<B>");
    ReplaceAllFirstMatch(w, "<B>", "x", 1);
    assert w[4..] == [];
    assert ReplaceAll(u, Token("B"), row["b"]) == "x x";
  }

  /** Substitutions are not a single pass over the template: a value that
      itself holds a later token of the template is expanded in its turn. */
  lemma ChainedExpansion(t: string, row: Row)
    requires t == "<A> <B>" && row == map["a" := "<B>", "b" := "x"]
    ensures PlainRow(row) && Resolve(t, row) == "x x"
  {
    var u := "<B> <B>";
    ChainTokens();
    ChainFirstStep(t, row);
    ChainSecondStep(u, row);
    var ts := FindTokens(Upper(t));
    assert ts[0] == "A" && ts[1..] == ["B"] && ["B"][0] == "B" && ["B"][1..] == [];
    assert ApplyTokens(u, ["B"], row) == "x x";
  }

  // ---------------------------------------------------------------------------
  // Templates made of plain text and placeholders

  /** A template cut into pieces: plain text without `<`, and placeholders
      written in any letter case. */
  datatype Piece = Lit(s: string) | Ph(l: string)

  function RenderPiece(p: Piece): string {
    match p
    case Lit(s) => s
    case Ph(l) => Token(l)
  }

  /** The template text the pieces spell. */
  function Render(t: seq<Piece>): string
    decreases |t|
  {
    if t == [] then [] else RenderPiece(t[0]) + Render(t[1..])
  }

  predicate PieceOk(p: Piece) {
    match p
    case Lit(s) => '<' !in s
    case Ph(l) => AsciiLetters(l)
  }

  predicate TemplateOk(t: seq<Piece>) {
    forall i :: 0 <= i < |t| ==> PieceOk(t[i])
  }

  /** Column values that bring no `<` into the text. */
  predicate NoAngleValues(row: Row) {
    forall k :: k in row ==> '<' !in row[k]
  }

  /** What a placeholder should become: its column's value, or the
      placeholder as written when the row has no such column. */
  function Shown(l: string, row: Row): string {
    if Lower(l) in row then row[Lower(l)] else Token(l)
  }

  function FillPiece(p: Piece, row: Row): string {
    match p
    case Lit(s) => s
    case Ph(l) => Shown(l, row)
  }

  /** The intended resolution: every placeholder shown as `Shown` says,
      independently of the others. */
  function Fill(t: seq<Piece>, row: Row): string
    decreases |t|
  {
    if t == [] then [] else FillPiece(t[0], row) + Fill(t[1..], row)
  }

  /** The letters the scan reports for a template, upper-cased, in order,
      one entry per placeholder. */
  function FoundLetters(t: seq<Piece>): seq<string>
    decreases |t|
  {
    if t == [] then [] else (if t[0].Ph? then [Upper(t[0].l)] else []) + FoundLetters(t[1..])
  }

  /** One `re.sub`: the placeholders matching `letters` ignoring case become
      the text `v`. */
  function ReplacePiece(p: Piece, letters: string, v: string): Piece {
    if p.Ph? && Lower(p.l) == Lower(letters) then Lit(v) else p
  }

  function ReplacePieces(t: seq<Piece>, letters: string, v: string): seq<Piece>
    decreases |t|
  {
    if t == [] then [] else [ReplacePiece(t[0], letters, v)] + ReplacePieces(t[1..], letters, v)
  }

  /** Some letters of `ts` lower-case to `k`. */
  predicate Named(ts: seq<string>, k: string) {
    exists j :: 0 <= j < |ts| && Lower(ts[j]) == k
  }

  /** The template after the substitutions for the letters `ts`. */
  function FillByPiece(p: Piece, row: Row, ts: seq<string>): Piece {
    if p.Ph? && Lower(p.l) in row && Named(ts, Lower(p.l)) then Lit(row[Lower(p.l)]) else p
  }

  function FillBy(t: seq<Piece>, row: Row, ts: seq<string>): seq<Piece>
    decreases |t|
  {
    if t == [] then [] else [FillByPiece(t[0], row, ts)] + FillBy(t[1..], row, ts)
  }

  lemma LowerUpper(s: string)
    ensures Lower(Upper(s)) == Lower(s)
  {
    assert forall i :: 0 <= i < |s| ==> LowerChar(UpperChar(s[i])) == LowerChar(s[i]);
  }

  lemma UpperLetters(l: string)
    requires AsciiLetters(l)
    ensures AsciiLetters(Upper(l)) && AllUpperLetters(Upper(l))
  {
  }

  lemma UpperToken(l: string)
    ensures Upper(Token(l)) == Token(Upper(l))
  {
    UpperAppend("<", l);
    UpperAppend("<" + l, ">");
  }

  lemma TemplateTail(t: seq<Piece>)
    requires TemplateOk(t) && t != []
    ensures PieceOk(t[0]) && TemplateOk(t[1..])
  {
    assert forall i :: 0 <= i < |t[1..]| ==> t[1..][i] == t[i + 1];
  }

  /** The scan of an upper-cased template finds one entry per placeholder,
      in order. */
  lemma {:induction false} FindTemplate(t: seq<Piece>)
    requires TemplateOk(t)
    ensures FindTokens(Upper(Render(t))) == FoundLetters(t)
    decreases |t|
  {
    if t != [] {
      TemplateTail(t);
      FindTemplate(t[1..]);
      var rest := Render(t[1..]);
      UpperAppend(RenderPiece(t[0]), rest);
      match t[0]
      case Lit(s) =>
        NoAngleUpper(s);
        FindTokensSkipsPlain(Upper(s), Upper(rest));
      case Ph(l) =>
        UpperToken(l);
        UpperLetters(l);
        FindTokensToken(Upper(l), Upper(rest));
    }
  }

  lemma {:induction false} FoundLettersOk(t: seq<Piece>)
    requires TemplateOk(t)
    ensures forall j :: 0 <= j < |FoundLetters(t)| ==> AsciiLetters(FoundLetters(t)[j])
    decreases |t|
  {
    if t != [] {
      TemplateTail(t);
      FoundLettersOk(t[1..]);
      if t[0].Ph? {
        UpperLetters(t[0].l);
      }
    }
  }

  /** Every placeholder of the template is named by the scan's letters. */
  lemma {:induction false} FoundNamesAll(t: seq<Piece>)
    ensures forall i :: 0 <= i < |t| && t[i].Ph? ==> Named(FoundLetters(t), Lower(t[i].l))
    decreases |t|
  {
    if t != [] {
      FoundNamesAll(t[1..]);
      var found := FoundLetters(t);
      var off := if t[0].Ph? then 1 else 0;
      assert found[off..] == FoundLetters(t[1..]);
      forall i | 0 <= i < |t| && t[i].Ph? ensures Named(found, Lower(t[i].l)) {
        if i == 0 {
          LowerUpper(t[0].l);
          assert Lower(found[0]) == Lower(t[0].l);
        } else {
          assert t[1..][i - 1] == t[i];
          var j :| 0 <= j < |found[off..]| && Lower(found[off..][j]) == Lower(t[i].l);
          assert found[j + off] == found[off..][j];
        }
      }
    }
  }

  /** No placeholder of other letters matches at, or inside, `<l>`. */
  lemma TokenNoMatch(l: string, u: string, rest: string)
    requires AsciiLetters(l) && AsciiLetters(u) && Lower(l) != Lower(u)
    ensures forall j :: 0 <= j < |Token(l)| ==> !MatchesAt((Token(l) + rest)[j..], Token(u))
  {
    var x := Token(l) + rest;
    var p := Token(u);
    forall j | 0 <= j < |Token(l)| ensures !MatchesAt(x[j..], p) {
      if j > 0 {
        assert x[j] != '<' by {
          if j <= |l| { assert x[j] == l[j - 1]; }
        }
        assert LowerChar(x[j..][0]) != LowerChar(p[0]);
      } else if |u| == |l| {
        var i :| 0 <= i < |l| && Lower(l)[i] != Lower(u)[i];
        assert x[i + 1] == l[i] && p[i + 1] == u[i];
        assert LowerChar(x[i + 1]) != LowerChar(p[i + 1]);
      } else if |u| < |l| {
        var k := |u| + 1;
        assert x[k] == l[k - 1] && p[k] == '>';
        assert LowerChar(x[k]) != LowerChar(p[k]);
      } else {
        var k := |l| + 1;
        assert x[k] == '>' && p[k] == u[k - 1];
        assert LowerChar(x[k]) != LowerChar(p[k]);
      }
    }
  }

  /** `<l>` matches the pattern `<u>` when the letters agree ignoring case. */
  lemma TokenMatchesSame(l: string, u: string, rest: string)
    requires Lower(l) == Lower(u)
    ensures MatchesAt(Token(l) + rest, Token(u))
  {
    var x := Token(l) + rest;
    var p := Token(u);
    forall i | 0 <= i < |p| ensures LowerChar(x[i]) == LowerChar(p[i]) {
      if 0 < i < |p| - 1 {
        assert x[i] == l[i - 1] && p[i] == u[i - 1];
        assert Lower(l)[i - 1] == Lower(u)[i - 1];
      }
    }
  }

  /** `re.sub` over the first piece and what follows it. */
  lemma ReplaceHead(q: Piece, rest: string, u: string, v: string)
    requires PieceOk(q) && AsciiLetters(u) && '\\' !in v
    ensures ReplaceAll(RenderPiece(q) + rest, Token(u), v)
         == RenderPiece(ReplacePiece(q, u, v)) + ReplaceAll(rest, Token(u), v)
  {
    var p := Token(u);
    var h := RenderPiece(q);
    var x := h + rest;
    assert x[..|h|] == h && x[|h|..] == rest;
    match q
    case Lit(s) =>
      NoAngleNoMatch(s, rest, p);
      ReplaceAllSkips(x, p, v, |h|);
    case Ph(l) =>
      if Lower(l) == Lower(u) {
        TokenMatchesSame(l, u, rest);
        ReplaceAllAtMatch(x, p, v);
      } else {
        TokenNoMatch(l, u, rest);
        ReplaceAllSkips(x, p, v, |h|);
      }
  }

  /** One `re.sub` acts on a template piece by piece, provided the
      replacement brings in no `<`. */
  lemma {:induction false} ReplaceTemplate(t: seq<Piece>, u: string, v: string)
    requires TemplateOk(t) && AsciiLetters(u) && '\\' !in v && '<' !in v
    ensures TemplateOk(ReplacePieces(t, u, v))
    ensures ReplaceAll(Render(t), Token(u), v) == Render(ReplacePieces(t, u, v))
    decreases |t|
  {
    if t != [] {
      TemplateTail(t);
      ReplaceTemplate(t[1..], u, v);
      ReplaceHead(t[0], Render(t[1..]), u, v);
      var r := ReplacePieces(t, u, v);
      assert r[1..] == ReplacePieces(t[1..], u, v);
      assert forall i :: 1 <= i < |r| ==> r[i] == r[1..][i - 1];
    }
  }

  lemma {:induction false} FillByNone(t: seq<Piece>, row: Row)
    ensures FillBy(t, row, []) == t
    decreases |t|
  {
    if t != [] {
      FillByNone(t[1..], row);
    }
  }

  lemma NamedCons(ts: seq<string>, k: string)
    requires ts != []
    ensures Named(ts, k) <==> Lower(ts[0]) == k || Named(ts[1..], k)
  {
    if Named(ts, k) && Lower(ts[0]) != k {
      var j :| 0 <= j < |ts| && Lower(ts[j]) == k;
      assert ts[1..][j - 1] == ts[j];
    }
    if Named(ts[1..], k) {
      var j :| 0 <= j < |ts[1..]| && Lower(ts[1..][j]) == k;
      assert ts[j + 1] == ts[1..][j];
    }
  }

  /** Substituting the first letters of `ts` and then the rest gives the
      substitutions for all of `ts`. */
  lemma {:induction false} FillByStep(t: seq<Piece>, row: Row, ts: seq<string>)
    requires ts != []
    ensures var t1 := if Lower(ts[0]) in row then ReplacePieces(t, ts[0], row[Lower(ts[0])]) else t;
            FillBy(t1, row, ts[1..]) == FillBy(t, row, ts)
    decreases |t|
  {
    if t != [] {
      FillByStep(t[1..], row, ts);
      if t[0].Ph? {
        NamedCons(ts, Lower(t[0].l));
      }
    }
  }

  /** Once every placeholder is named, the substitutions give `Fill`. */
  lemma {:induction false} FillByAll(t: seq<Piece>, row: Row, ts: seq<string>)
    requires forall i :: 0 <= i < |t| && t[i].Ph? ==> Named(ts, Lower(t[i].l))
    ensures Render(FillBy(t, row, ts)) == Fill(t, row)
    decreases |t|
  {
    if t != [] {
      assert forall i :: 0 <= i < |t[1..]| ==> t[1..][i] == t[i + 1];
      FillByAll(t[1..], row, ts);
    }
  }

  /** The loop over the letters `ts`, on a template. */
  lemma {:induction false} ApplyTemplate(t: seq<Piece>, ts: seq<string>, row: Row)
    requires TemplateOk(t) && PlainRow(row) && NoAngleValues(row)
    requires forall j :: 0 <= j < |ts| ==> AsciiLetters(ts[j])
    ensures ApplyTokens(Render(t), ts, row) == Render(FillBy(t, row, ts))
    decreases |ts|
  {
    if ts == [] {
      FillByNone(t, row);
    } else {
      var u := ts[0];
      var t1 := t;
      if Lower(u) in row {
        t1 := ReplacePieces(t, u, row[Lower(u)]);
        ReplaceTemplate(t, u, row[Lower(u)]);
      }
      assert Substitute(Render(t), u, row) == Render(t1);
      ApplyTemplate(t1, ts[1..], row);
      FillByStep(t, row, ts);
    }
  }

  /** `substituir_placeholders` on a template whose plain text and column
      values hold no `<`: every placeholder, in any letter case and however
      often it occurs, becomes its column's value, and a placeholder without
      a column stays as written. */
  lemma ResolveTemplate(t: seq<Piece>, row: Row)
    requires TemplateOk(t) && PlainRow(row) && NoAngleValues(row)
    ensures Resolve(Render(t), row) == Fill(t, row)
  {
    var text := Render(t);
    FindTemplate(t);
    FoundLettersOk(t);
    FoundNamesAll(t);
    ApplyTemplate(t, FoundLetters(t), row);
    FillByAll(t, row, FoundLetters(t));
    if text == "" {
      assert Upper(text) == [];
    }
  }

  lemma {:induction false} RenderSnoc(t: seq<Piece>, p: Piece)
    ensures Render(t + [p]) == Render(t) + RenderPiece(p)
    decreases |t|
  {
    var q := t + [p];
    if t == [] {
      assert q == [p] && q[1..] == [];
      assert Render(q) == RenderPiece(p) + Render([]);
    } else {
      assert q[0] == t[0] && q[1..] == t[1..] + [p];
      RenderSnoc(t[1..], p);
      assert Render(q) == RenderPiece(t[0]) + (Render(t[1..]) + RenderPiece(p));
    }
  }

  lemma {:induction false} FillSnoc(t: seq<Piece>, p: Piece, row: Row)
    ensures Fill(t + [p], row) == Fill(t, row) + FillPiece(p, row)
    decreases |t|
  {
    var q := t + [p];
    if t == [] {
      assert q == [p] && q[1..] == [];
      assert Fill(q, row) == FillPiece(p, row) + Fill([], row);
    } else {
      assert q[0] == t[0] && q[1..] == t[1..] + [p];
      FillSnoc(t[1..], p, row);
      assert Fill(q, row) == FillPiece(t[0], row) + (Fill(t[1..], row) + FillPiece(p, row));
    }
  }

  /** The template `a0 <l1> a1 <l2> a2`. */
  function TwoPieces(a0: string, l1: string, a1: string, l2: string, a2: string): seq<Piece> {
    [Lit(a0)] + [Ph(l1)] + [Lit(a1)] + [Ph(l2)] + [Lit(a2)]
  }

  lemma TwoPiecesRender(a0: string, l1: string, a1: string, l2: string, a2: string)
    ensures Render(TwoPieces(a0, l1, a1, l2, a2)) == a0 + Token(l1) + a1 + Token(l2) + a2
  {
    RenderSnoc([], Lit(a0));
    assert [] + [Lit(a0)] == [Lit(a0)];
    RenderSnoc([Lit(a0)], Ph(l1));
    RenderSnoc([Lit(a0)] + [Ph(l1)], Lit(a1));
    RenderSnoc([Lit(a0)] + [Ph(l1)] + [Lit(a1)], Ph(l2));
    RenderSnoc([Lit(a0)] + [Ph(l1)] + [Lit(a1)] + [Ph(l2)], Lit(a2));
  }

  lemma TwoPiecesFill(a0: string, l1: string, a1: string, l2: string, a2: string, row: Row)
    ensures Fill(TwoPieces(a0, l1, a1, l2, a2), row) == a0 + Shown(l1, row) + a1 + Shown(l2, row) + a2
  {
    FillSnoc([], Lit(a0), row);
    assert [] + [Lit(a0)] == [Lit(a0)];
    FillSnoc([Lit(a0)], Ph(l1), row);
    FillSnoc([Lit(a0)] + [Ph(l1)], Lit(a1), row);
    FillSnoc([Lit(a0)] + [Ph(l1)] + [Lit(a1)], Ph(l2), row);
    FillSnoc([Lit(a0)] + [Ph(l1)] + [Lit(a1)] + [Ph(l2)], Lit(a2), row);
  }

  lemma TwoPiecesOk(a0: string, l1: string, a1: string, l2: string, a2: string)
    requires AsciiLetters(l1) && AsciiLetters(l2)
    requires '<' !in a0 && '<' !in a1 && '<' !in a2
    ensures TemplateOk(TwoPieces(a0, l1, a1, l2, a2))
  {
    var t := TwoPieces(a0, l1, a1, l2, a2);
    assert t == [Lit(a0), Ph(l1), Lit(a1), Ph(l2), Lit(a2)];
  }

  /** Two placeholders between plain text, the same column or not: each
      becomes what `Shown` says, so `<nome> e <NOME>` gets the value
      twice. */
  lemma ResolveTwo(a0: string, l1: string, a1: string, l2: string, a2: string, row: Row)
    requires PlainRow(row) && NoAngleValues(row)
    requires AsciiLetters(l1) && AsciiLetters(l2)
    requires '<' !in a0 && '<' !in a1 && '<' !in a2
    ensures Resolve(a0 + Token(l1) + a1 + Token(l2) + a2, row)
         == a0 + Shown(l1, row) + a1 + Shown(l2, row) + a2
  {
    var t := TwoPieces(a0, l1, a1, l2, a2);
    TwoPiecesRender(a0, l1, a1, l2, a2);
    TwoPiecesFill(a0, l1, a1, l2, a2, row);
    TwoPiecesOk(a0, l1, a1, l2, a2);
    ResolveTemplate(t, row);
  }
}
