/** What the Owncast HTML parser makes of the printer's output.

    `Encode(S, t)` is t with just the characters of S escaped. The printer escapes six characters at
    once; every parser pass then removes some of that, and the lemmas follow the passes one by one. */
module HtmlRoundTrip {
  import opened ContentTokens
  import opened OwncastHtml

  const SPECIAL: set<char> := {'&', '<', '>', '"', '\'', '\n'}
  const INLINE: set<char> := {'&', '<', '>', '"', '\''}

  function Name(c: char): string {
    if c == '&' then "&amp;" else if c == '<' then "&lt;" else if c == '>' then "&gt;"
    else if c == '"' then "&quot;" else if c == '\'' then "&#39;" else "<br/>"
  }

  function Encode(escaped: set<char>, t: string): string {
    if t == "" then "" else Code(escaped, t[0]) + Encode(escaped, t[1..])
  }

  /** The character every match of a rule begins with. */
  function FirstChar(rule: Rule): char {
    match rule
    case Literal(pattern, _) => if pattern == "" then '\0' else pattern[0]
    case NumericRef => '&'
    case _ => '<'
  }

  // ---------------------------------------------------------------- rewriting, piece by piece

  /** Wherever the piece u stands, the rewrite turns it into u' and carries on behind it. */
  ghost predicate Becomes(rule: Rule, u: string, u': string) {
    forall rest :: Replace(rule, u + rest) == u' + Replace(rule, rest)
  }

  lemma BecomesGlued(rule: Rule, u: string, u': string, v: string, v': string)
    requires Becomes(rule, u, u') && Becomes(rule, v, v')
    ensures Becomes(rule, u + v, u' + v')
  {
    forall rest ensures Replace(rule, (u + v) + rest) == (u' + v') + Replace(rule, rest) {
      GluedAt(rule, u, u', v, v', rest, Replace(rule, v + rest), Replace(rule, rest));
    }
  }

  lemma GluedAt(rule: Rule, u: string, u': string, v: string, v': string, rest: string, x: string, y: string)
    requires Replace(rule, u + (v + rest)) == u' + x && x == v' + y
    ensures Replace(rule, (u + v) + rest) == (u' + v') + y
  {
    assert (u + v) + rest == u + (v + rest);
    assert (u' + v') + y == u' + (v' + y);
  }

  lemma BecomesAlone(rule: Rule, u: string, u': string)
    requires Becomes(rule, u, u')
    ensures Replace(rule, u) == u'
  {
    assert u + "" == u && u' + "" == u';
    assert Replace(rule, u + "") == u' + Replace(rule, "");
  }

  lemma HeadKept(rule: Rule, s: string)
    requires s != "" && MatchAt(rule, s).NoMatch?
    ensures Replace(rule, s) == [s[0]] + Replace(rule, s[1..])
  {
  }

  lemma HeadAndTail(u: string, x: string)
    requires u != ""
    ensures [u[0]] + (u[1..] + x) == u + x && (u + x)[0] == u[0] && (u + x)[1..] == u[1..] + x
  {
  }

  lemma {:induction false} PassOver(rule: Rule, u: string, rest: string)
    requires forall i :: 0 <= i < |u| ==> MatchAt(rule, (u + rest)[i..]).NoMatch?
    ensures Replace(rule, u + rest) == u + Replace(rule, rest)
  {
    if u == "" {
      assert u + rest == rest;
    } else {
      var s, tail := u + rest, u[1..];
      HeadAndTail(u, rest);
      forall i | 0 <= i < |tail| ensures MatchAt(rule, (tail + rest)[i..]).NoMatch? {
        assert (tail + rest)[i..] == s[i + 1..];
      }
      PassOver(rule, tail, rest);
      assert s[0..] == s;
      HeadKept(rule, s);
      HeadAndTail(u, Replace(rule, rest));
    }
  }

  lemma NoMatchElsewhere(rule: Rule, s: string)
    requires s != "" && s[0] != FirstChar(rule)
    ensures MatchAt(rule, s).NoMatch?
  {
  }

  lemma PassPlain(rule: Rule, u: string)
    requires FirstChar(rule) !in u
    ensures Becomes(rule, u, u)
  {
    forall rest ensures Replace(rule, u + rest) == u + Replace(rule, rest) {
      forall i | 0 <= i < |u| ensures MatchAt(rule, (u + rest)[i..]).NoMatch? {
        assert (u + rest)[i..][0] == u[i];
        NoMatchElsewhere(rule, (u + rest)[i..]);
      }
      PassOver(rule, u, rest);
    }
  }

  /** A piece of markup that the rule does not match at its front and cannot match inside. */
  lemma PassMarkup(rule: Rule, u: string)
    requires u != "" && FirstChar(rule) !in u[1..]
    requires forall rest :: MatchAt(rule, u + rest).NoMatch?
    ensures Becomes(rule, u, u)
  {
    forall rest ensures Replace(rule, u + rest) == u + Replace(rule, rest) {
      forall i | 0 <= i < |u| ensures MatchAt(rule, (u + rest)[i..]).NoMatch? {
        if i > 0 {
          assert (u + rest)[i..][0] == u[1..][i - 1];
          NoMatchElsewhere(rule, (u + rest)[i..]);
        } else {
          assert (u + rest)[0..] == u + rest;
        }
      }
      PassOver(rule, u, rest);
    }
  }

  lemma PassMatch(rule: Rule, u: string, text: string)
    requires u != "" && forall rest :: MatchAt(rule, u + rest) == Match(|u|, text)
    ensures Becomes(rule, u, text)
  {
    forall rest ensures Replace(rule, u + rest) == text + Replace(rule, rest) {
      assert MatchAt(rule, u + rest) == Match(|u|, text);
      assert (u + rest)[|u|..] == rest;
    }
  }

  lemma PassNothing(rule: Rule)
    ensures Becomes(rule, "", "")
  {
    forall rest ensures Replace(rule, "" + rest) == "" + Replace(rule, rest) {
      assert "" + rest == rest;
    }
  }

  // ---------------------------------------------------------------- the printer escapes characterwise

  lemma EncodeNothing(t: string)
    ensures Encode({}, t) == t
  {
  }

  lemma EncodeConcat(escaped: set<char>, a: string, b: string)
    ensures Encode(escaped, a + b) == Encode(escaped, a) + Encode(escaped, b)
  {
    if a == "" {
      assert a + b == b;
    } else {
      assert (a + b)[1..] == a[1..] + b;
      EncodeConcat(escaped, a[1..], b);
    }
  }

  /** Escaping the ampersand first keeps the later escapes apart. */
  lemma NamesHoldNoMarkup(d: char)
    requires d in INLINE
    ensures '<' !in Name(d) && '>' !in Name(d) && '"' !in Name(d) && '\'' !in Name(d) && '\n' !in Name(d)
    ensures Name(d)[0] == '&' && '&' !in Name(d)[1..]
  {
  }

  /** Characterwise rewriting of an encoded text, given what happens to each character's code. */
  lemma {:induction false} BecomesRecoded(rule: Rule, from: set<char>, into: set<char>, t: string)
    requires forall c :: c in t ==> Becomes(rule, Code(from, c), Code(into, c))
    ensures Becomes(rule, Encode(from, t), Encode(into, t))
  {
    if t == "" {
      PassNothing(rule);
    } else {
      BecomesRecoded(rule, from, into, t[1..]);
      BecomesGlued(rule, Code(from, t[0]), Code(into, t[0]), Encode(from, t[1..]), Encode(into, t[1..]));
    }
  }

  function Code(escaped: set<char>, c: char): string { if c in escaped then Name(c) else [c] }

  lemma EscapeStep(pattern: string, name: string, c: char, escaped: set<char>, more: set<char>, t: string)
    requires c in SPECIAL && c !in escaped && escaped <= INLINE && (c == '&' ==> escaped == {})
    requires pattern == [c] && name == Name(c) && more == escaped + {c}
    ensures Replace(Literal(pattern, name), Encode(escaped, t)) == Encode(more, t)
  {
    var rule := Literal(pattern, name);
    forall d | d in t ensures Becomes(rule, Code(escaped, d), Code(more, d)) {
      if d in escaped {
        NamesHoldNoMarkup(d);
        PassPlain(rule, Name(d));
      } else if d == c {
        PassMatch(rule, [c], name);
      } else {
        PassPlain(rule, [d]);
      }
    }
    BecomesRecoded(rule, escaped, more, t);
    BecomesAlone(rule, Encode(escaped, t), Encode(more, t));
  }

  lemma EscapeIsCharacterwise(t: string)
    ensures EscapeText(t) == Encode(SPECIAL, t)
  {
    EncodeNothing(t);
    EscapeStep("&", "&amp;", '&', {}, {'&'}, t);
    EscapeStep("<", "&lt;", '<', {'&'}, {'&', '<'}, t);
    EscapeStep(">", "&gt;", '>', {'&', '<'}, {'&', '<', '>'}, t);
    EscapeStep("\"", "&quot;", '"', {'&', '<', '>'}, {'&', '<', '>', '"'}, t);
    EscapeStep("'", "&#39;", '\'', {'&', '<', '>', '"'}, INLINE, t);
    EscapeStep("\n", "<br/>", '\n', INLINE, SPECIAL, t);
  }

  // ---------------------------------------------------------------- the four stripping passes

  function Inlined(t: string): string { Encode(INLINE, t) }

  lemma {:induction false} InlinedHoldsNoMarkup(t: string)
    ensures '<' !in Inlined(t) && '>' !in Inlined(t) && '"' !in Inlined(t)
  {
    if t != "" {
      InlinedHoldsNoMarkup(t[1..]);
      if t[0] in INLINE { NamesHoldNoMarkup(t[0]); }
      assert Inlined(t) == Code(INLINE, t[0]) + Inlined(t[1..]);
    }
  }

  /** A token's markup once line breaks are back. */
  function Piece(r: Rendering, value: string): string {
    match r
    case Plain => Inlined(value)
    case Linked(href) => "<a href=\"" + Inlined(href) + "\">" + Inlined(value) + "</a>"
    case Inline(src) =>
      "<img src=\"" + Inlined(src) + "\" class=\"emoji\" alt=\"" + Inlined(value)
        + "\" title=\"" + Inlined(value) + "\"/>"
  }

  function Pieces(tokens: seq<Token>, emoji: map<string, string>): string {
    if tokens == [] then ""
    else Piece(RenderingOf(tokens[0], emoji), tokens[0].value) + Pieces(tokens[1..], emoji)
  }

  /** A token's markup once inline images are replaced by their alt text. */
  function Linkage(r: Rendering, value: string): string {
    if r.Inline? then Inlined(value) else Piece(r, value)
  }

  function Linkages(tokens: seq<Token>, emoji: map<string, string>): string {
    if tokens == [] then ""
    else Linkage(RenderingOf(tokens[0], emoji), tokens[0].value) + Linkages(tokens[1..], emoji)
  }

  /** A tag whose first letters are not those the rule is looking for. */
  predicate Foreign(rule: Rule, u: string) {
    && |u| >= 3 && u[0] == '<'
    && match rule
       case LineBreak => Lower(u[1]) != 'b'
       case ParagraphGap => u[1] != '/' || Lower(u[2]) != 'p'
       case Image => Lower(u[1]) != 'i'
       case _ => false
  }

  lemma ForeignNoMatch(rule: Rule, s: string)
    requires Foreign(rule, s)
    ensures MatchAt(rule, s).NoMatch?
  {
  }

  lemma PassForeign(rule: Rule, u: string)
    requires Foreign(rule, u) && '<' !in u[1..]
    ensures Becomes(rule, u, u)
  {
    forall rest ensures MatchAt(rule, u + rest).NoMatch? {
      assert (u + rest)[1] == u[1] && (u + rest)[2] == u[2];
      ForeignNoMatch(rule, u + rest);
    }
    PassMarkup(rule, u);
  }

  lemma BreakReturns()
    ensures Becomes(LineBreak, "<br/>", "\n")
  {
    forall rest ensures MatchAt(LineBreak, "<br/>" + rest) == Match(|"<br/>"|, "\n") {
      var s := "<br/>" + rest;
      assert s[3..][0] == '/' && s[3] == '/' && s[4] == '>' && Starts(s, "<br");
    }
    PassMatch(LineBreak, "<br/>", "\n");
  }

  lemma BreakCode(c: char)
    ensures Becomes(LineBreak, Code(SPECIAL, c), Code(INLINE, c))
  {
    if c == '\n' {
      BreakReturns();
      assert Code(SPECIAL, c) == "<br/>" && Code(INLINE, c) == "\n";
    } else {
      var code := Code(INLINE, c);
      assert '<' !in code by { if c in INLINE { NamesHoldNoMarkup(c); } }
      assert Code(SPECIAL, c) == code;
      PassPlain(LineBreak, code);
    }
  }

  lemma BreaksReturn(t: string)
    ensures Becomes(LineBreak, EscapeText(t), Inlined(t))
  {
    EscapeIsCharacterwise(t);
    forall c | c in t { BreakCode(c); }
    BecomesRecoded(LineBreak, SPECIAL, INLINE, t);
  }

  /** One token as the printer writes it. */
  function Printed(r: Rendering, value: string): string {
    match r
    case Plain => EscapeText(value)
    case Linked(href) => Anchor(href, value)
    case Inline(src) => InlineImage(src, value)
  }

  lemma BreakPass(r: Rendering, value: string)
    ensures Becomes(LineBreak, Printed(r, value), Piece(r, value))
  {
    BreaksReturn(value);
    match r
    case Plain =>
    case Linked(href) =>
      BreaksReturn(href);
      BreakPassLinked(EscapeText(href), Inlined(href), EscapeText(value), Inlined(value));
    case Inline(src) =>
      BreaksReturn(src);
      BreakPassInline(EscapeText(src), Inlined(src), EscapeText(value), Inlined(value));
  }

  lemma BreakPassLinked(h: string, h': string, v: string, v': string)
    requires Becomes(LineBreak, h, h') && Becomes(LineBreak, v, v')
    ensures Becomes(LineBreak, "<a href=\"" + h + "\">" + v + "</a>", "<a href=\"" + h' + "\">" + v' + "</a>")
  {
    PassForeign(LineBreak, "<a href=\"");
    PassPlain(LineBreak, "\">");
    PassForeign(LineBreak, "</a>");
    GluedFive(LineBreak, "<a href=\"", h, h', "\">", v, v', "</a>");
  }

  lemma GluedFive(rule: Rule, a: string, h: string, h': string, b: string, v: string, v': string, c: string)
    requires Becomes(rule, a, a) && Becomes(rule, b, b) && Becomes(rule, c, c)
    requires Becomes(rule, h, h') && Becomes(rule, v, v')
    ensures Becomes(rule, a + h + b + v + c, a + h' + b + v' + c)
  {
    BecomesGlued(rule, a, a, h, h');
    BecomesGlued(rule, a + h, a + h', b, b);
    BecomesGlued(rule, a + h + b, a + h' + b, v, v');
    BecomesGlued(rule, a + h + b + v, a + h' + b + v', c, c);
  }

  lemma BreakPassInline(h: string, h': string, v: string, v': string)
    requires Becomes(LineBreak, h, h') && Becomes(LineBreak, v, v')
    ensures Becomes(LineBreak,
      "<img src=\"" + h + "\" class=\"emoji\" alt=\"" + v + "\" title=\"" + v + "\"/>",
      "<img src=\"" + h' + "\" class=\"emoji\" alt=\"" + v' + "\" title=\"" + v' + "\"/>")
  {
    PassForeign(LineBreak, "<img src=\"");
    PassPlain(LineBreak, "\" class=\"emoji\" alt=\"");
    PassPlain(LineBreak, "\" title=\"");
    PassPlain(LineBreak, "\"/>");
    GluedFive(LineBreak, "<img src=\"", h, h', "\" class=\"emoji\" alt=\"", v, v', "\" title=\"");
    var front := "<img src=\"" + h + "\" class=\"emoji\" alt=\"" + v + "\" title=\"";
    var front' := "<img src=\"" + h' + "\" class=\"emoji\" alt=\"" + v' + "\" title=\"";
    GluedThree(LineBreak, front, front', v, v', "\"/>", "\"/>");
  }

  lemma GluedThree(rule: Rule, a: string, a': string, v: string, v': string, c: string, c': string)
    requires Becomes(rule, a, a') && Becomes(rule, v, v') && Becomes(rule, c, c')
    ensures Becomes(rule, a + v + c, a' + v' + c')
  {
    BecomesGlued(rule, a, a', v, v');
    BecomesGlued(rule, a + v, a' + v', c, c');
  }

  /** Neither of the other two passes sees anything in a link. */
  lemma LinkPass(rule: Rule, h: string, v: string)
    requires rule.ParagraphGap? || rule.Image?
    requires '<' !in h && '<' !in v
    ensures Becomes(rule, "<a href=\"" + h + "\">" + v + "</a>", "<a href=\"" + h + "\">" + v + "</a>")
  {
    var front := "<a href=\"" + h + "\">" + v;
    PassForeign(rule, front);
    PassForeign(rule, "</a>");
    BecomesGlued(rule, front, front, "</a>", "</a>");
  }

  lemma GapPass(r: Rendering, value: string)
    ensures Becomes(ParagraphGap, Piece(r, value), Piece(r, value))
  {
    InlinedHoldsNoMarkup(value);
    match r
    case Plain => PassPlain(ParagraphGap, Inlined(value));
    case Linked(href) =>
      InlinedHoldsNoMarkup(href);
      LinkPass(ParagraphGap, Inlined(href), Inlined(value));
    case Inline(src) =>
      InlinedHoldsNoMarkup(src);
      GapPassInline(Inlined(src), Inlined(value));
  }

  lemma GapPassInline(h: string, v: string)
    requires '<' !in h && '<' !in v
    ensures var u := "<img src=\"" + h + "\" class=\"emoji\" alt=\"" + v + "\" title=\"" + v + "\"/>";
      Becomes(ParagraphGap, u, u)
  {
    var u := "<img src=\"" + h + "\" class=\"emoji\" alt=\"" + v + "\" title=\"" + v + "\"/>";
    assert u[1] == 'i';
    PassForeign(ParagraphGap, u);
  }

  /** What an inline emoji needs for its alt text to be found: not to end in '=', as no
      `:shortcode:` does. */
  predicate AltSafe(r: Rendering, value: string) {
    r.Inline? ==> value == "" || value[|value| - 1] != '='
  }

  lemma ImagePass(r: Rendering, value: string)
    requires AltSafe(r, value)
    ensures Becomes(Image, Piece(r, value), Linkage(r, value))
  {
    InlinedHoldsNoMarkup(value);
    match r
    case Plain => PassPlain(Image, Inlined(value));
    case Linked(href) =>
      InlinedHoldsNoMarkup(href);
      LinkPass(Image, Inlined(href), Inlined(value));
    case Inline(src) =>
      InlinedHoldsNoMarkup(src);
      InlinedEnds(value);
      ImagePassInline(Inlined(src), Inlined(value));
  }

  lemma ImagePassInline(h: string, v: string)
    requires '>' !in h && '>' !in v && '"' !in v
    requires v == "" || v[|v| - 1] != '='
    ensures Becomes(Image, "<img src=\"" + h + "\" class=\"emoji\" alt=\"" + v + "\" title=\"" + v + "\"/>", v)
  {
    var u := "<img src=\"" + h + "\" class=\"emoji\" alt=\"" + v + "\" title=\"" + v + "\"/>";
    forall rest ensures MatchAt(Image, u + rest) == Match(|u|, v) {
      ImageMatchesPrinted(u + rest, h, v, rest);
    }
    PassMatch(Image, u, v);
  }

  lemma ImageMatchesPrinted(s: string, h: string, v: string, rest: string)
    requires s == "<img src=\"" + h + "\" class=\"emoji\" alt=\"" + v + "\" title=\"" + v + "\"/>" + rest
    requires '>' !in h && '>' !in v && '"' !in v && (v == "" || v[|v| - 1] != '=')
    ensures MatchAt(Image, s) == Match(|h| + 2 * |v| + 43, v)
  {
    var open, class_ := "<img src=\"", "\" class=\"emoji\" ";
    var front := open + h + class_;
    assert "\" class=\"emoji\" alt=\"" == class_ + "alt=\"";
    SpliceMiddle(open, h, class_, "alt=\"", v + "\" title=\"" + v + "\"/>" + rest);
    Flatten("<img src=\"" + h + "\" class=\"emoji\" alt=\"", v, "\" title=\"", v, "\"/>", rest);
    Flatten(front + "alt=\"", v, "\" title=\"", v, "\"/>", rest);
    ImageLayout(s, front, v, rest);
    FrontIsClean(s, front, h);
    ImageMatches(s, |front|, v);
  }

  lemma FrontIsClean(s: string, front: string, h: string)
    requires front == "<img src=\"" + h + "\" class=\"emoji\" " && front <= s && '>' !in h
    ensures |front| == |h| + 26 && Starts(s, "<img") && '>' !in s[4..|front|]
  {
    assert s[4..|front|] == front[4..];
    assert '>' !in front;
    assert s[0] == '<' && s[1] == 'i' && s[2] == 'm' && s[3] == 'g';
  }

  lemma SpliceMiddle(a: string, h: string, b: string, c: string, d: string)
    ensures a + h + (b + c) + d == a + h + b + c + d
  {
  }

  lemma Flatten(a: string, v: string, b: string, w: string, c: string, rest: string)
    ensures a + v + b + w + c + rest == a + (v + b + w + c + rest)
  {
  }

  /** The greedy scan finds exactly the alt attribute of a printed emoji. */
  lemma ImageMatches(s: string, k: nat, v: string)
    requires Layout(s, k, v) && k >= 4 && Starts(s, "<img")
    requires '>' !in s[4..k] && '>' !in v && '"' !in v
    requires v == "" || v[|v| - 1] != '='
    ensures MatchAt(Image, s) == Match(k + 2 * |v| + 17, v)
  {
    var q, g := k + 5 + |v|, k + 2 * |v| + 16;
    LayoutFinds(s, k, v);
    assert Starts(s[k..], "alt=\"");
    forall j | k < j <= g ensures AltAt(s, j).NoMatch? {
      NoLaterAlt(s, k, v, j);
    }
    AltFound(s, k, g);
  }

  lemma LayoutFinds(s: string, k: nat, v: string)
    requires Layout(s, k, v) && k >= 4 && '>' !in s[4..k] && '>' !in v && '"' !in v
    ensures Find(s, '>', 4) == k + 2 * |v| + 16
    ensures Find(s, '"', k + 5) == k + 5 + |v|
    ensures Find(s, '>', k + 6 + |v|) == k + 2 * |v| + 16
  {
    var q, g := k + 5 + |v|, k + 2 * |v| + 16;
    forall i | 4 <= i < k ensures s[i] != '>' { assert s[i] == s[4..k][i - 4]; }
    assert forall i :: 4 <= i < g ==> s[i] != '>';
    assert forall i :: k + 5 <= i < q ==> s[i] != '"';
  }

  /** A printed emoji, position by position, from its alt attribute at k to its '>'. */
  ghost predicate Layout(s: string, k: nat, v: string) {
    var q := k + 5 + |v|;
    var e := q + 8 + |v|;
    && e + 3 < |s|
    && s[k] == 'a' && s[k + 1] == 'l' && s[k + 2] == 't' && s[k + 3] == '=' && s[k + 4] == '"'
    && (forall i :: k + 5 <= i < q ==> s[i] == v[i - (k + 5)])
    && s[q] == '"' && s[q + 1] == ' ' && s[q + 2] == 't' && s[q + 3] == 'i' && s[q + 4] == 't'
    && s[q + 5] == 'l' && s[q + 6] == 'e' && s[q + 7] == '=' && s[q + 8] == '"'
    && (forall i :: q + 9 <= i < e + 1 ==> s[i] == v[i - (q + 9)])
    && s[e + 1] == '"' && s[e + 2] == '/' && s[e + 3] == '>'
  }

  lemma ImageLayout(s: string, a: string, v: string, rest: string)
    requires s == a + "alt=\"" + v + "\" title=\"" + v + "\"/>" + rest
    ensures Layout(s, |a|, v)
  {
    var title, close := "\" title=\"", "\"/>";
    var t := title + v + close + rest;
    var q := |a| + 5 + |v|;
    assert s == a + "alt=\"" + v + t;
    assert s[q..] == t && t[..9] == title && t[9 + |v|..9 + |v| + 3] == close;
    assert forall i :: 0 <= i < 9 ==> s[q..][i] == title[i];
    assert forall i :: q <= i < q + 9 ==> s[i] == title[i - q];
    assert forall i :: q + 9 + |v| <= i < q + 12 + |v| ==> s[i] == close[i - (q + 9 + |v|)];
  }

  lemma InlinedEnds(value: string)
    requires value == "" || value[|value| - 1] != '='
    ensures Inlined(value) == "" || Inlined(value)[|Inlined(value)| - 1] != '='
  {
    if value != "" {
      var init, last := value[..|value| - 1], value[|value| - 1];
      assert value == init + [last];
      EncodeConcat(INLINE, init, [last]);
      assert [last][1..] == "";
    }
  }

  /** After the alt attribute of a printed emoji no other quote is preceded by "alt=". */
  lemma NoLaterAlt(s: string, k: nat, v: string, j: nat)
    requires Layout(s, k, v) && '"' !in v
    requires v == "" || v[|v| - 1] != '='
    requires k < j <= k + 2 * |v| + 16
    ensures AltAt(s, j).NoMatch?
  {
    var q := k + 5 + |v|;
    var p := j + 4;
    assert p < |s| && s[p] == '"' ==> p == q || p == q + 8 || p == q + 9 + |v| || p > q + 11 + |v|;
    assert v != "" ==> s[q - 1] != '=' && s[q + 8 + |v|] != '=';
  }

  lemma {:induction false} AltFound(s: string, k: nat, g: nat)
    requires 4 <= k <= g <= |s| && AltAt(s, k).Match?
    requires forall j :: k < j <= g ==> AltAt(s, j).NoMatch?
    ensures LastAlt(s, g) == AltAt(s, k)
  {
    if k < g { AltFound(s, k, g - 1); }
  }

  lemma TagStripped(inner: string)
    requires inner != "" && '>' !in inner
    ensures Becomes(Tag, "<" + inner + ">", "")
  {
    var u := "<" + inner + ">";
    forall rest ensures MatchAt(Tag, u + rest) == Match(|u|, "") {
      TagMatches(u + rest, inner);
    }
    PassMatch(Tag, u, "");
  }

  lemma TagMatches(s: string, inner: string)
    requires inner != "" && '>' !in inner && "<" + inner + ">" <= s
    ensures MatchAt(Tag, s) == Match(|inner| + 2, "")
  {
    var u := "<" + inner + ">";
    assert forall i :: 0 <= i < |u| ==> s[i] == u[i];
    assert forall i :: 1 <= i < |inner| + 1 ==> s[i] == inner[i - 1];
    assert s[|inner| + 1] == '>';
  }

  lemma TagPass(r: Rendering, value: string)
    ensures Becomes(Tag, Linkage(r, value), Inlined(value))
  {
    InlinedHoldsNoMarkup(value);
    PassPlain(Tag, Inlined(value));
    if r.Linked? {
      InlinedHoldsNoMarkup(r.href);
      TagPassLinked(Inlined(r.href), Inlined(value));
    }
  }

  lemma TagPassLinked(h: string, v: string)
    requires '>' !in h && Becomes(Tag, v, v)
    ensures Becomes(Tag, "<a href=\"" + h + "\">" + v + "</a>", v)
  {
    LinkTags(h);
    TagStripped("a href=\"" + h + "\"");
    TagStripped("/a");
    Unwrapped("<a href=\"" + h + "\">", v, "</a>");
  }

  lemma LinkTags(h: string)
    ensures "<" + ("a href=\"" + h + "\"") + ">" == "<a href=\"" + h + "\">"
    ensures "<" + "/a" + ">" == "</a>"
  {
    assert "<a href=\"" == "<" + "a href=\"" && "\">" == "\"" + ">";
    Sandwich("<", "a href=\"", h, "\"", ">");
  }

  lemma Unwrapped(open: string, v: string, close: string)
    requires Becomes(Tag, open, "") && Becomes(Tag, v, v) && Becomes(Tag, close, "")
    ensures Becomes(Tag, open + v + close, v)
  {
    GluedThree(Tag, open, "", v, v, close, "");
    assert "" + v + "" == v;
  }

  lemma Sandwich(a: string, b: string, h: string, c: string, d: string)
    ensures a + (b + h + c) + d == (a + b) + h + (c + d)
  {
  }
}
