/** The main results on Owncast HTML: what parsing a printed message gives, for every message, and
    exactly which messages come back unchanged. */
module HtmlDecoding {
  import opened ContentTokens
  import opened OwncastHtml
  import opened HtmlRoundTrip
  import opened Options

  const QUOTED: set<char> := {'<', '>', '"', '\''}

  /** The entities decoded after &amp;. A text that spells one of them out does not survive. */
  function References(): seq<Rule> { NAMED_ENTITIES[1..] }

  // ---------------------------------------------------------------- decoding undoes escaping

  lemma AmpersandCode(c: char)
    ensures Becomes(Literal("&amp;", "&"), Code(INLINE, c), Code(QUOTED, c))
  {
    var rule := Literal("&amp;", "&");
    if c == '&' {
      PassMatch(rule, "&amp;", "&");
      assert Code(INLINE, c) == "&amp;" && Code(QUOTED, c) == "&";
    } else if c in QUOTED {
      NamesHoldNoMarkup(c);
      forall rest ensures MatchAt(rule, Name(c) + rest).NoMatch? {
        assert (Name(c) + rest)[1] == Name(c)[1] != "&amp;"[1];
      }
      PassMarkup(rule, Name(c));
    } else {
      PassPlain(rule, [c]);
    }
  }

  lemma AmpersandDecoded(t: string)
    ensures Replace(Literal("&amp;", "&"), Inlined(t)) == Encode(QUOTED, t)
  {
    var rule := Literal("&amp;", "&");
    forall c | c in t { AmpersandCode(c); }
    BecomesRecoded(rule, INLINE, QUOTED, t);
    BecomesAlone(rule, Inlined(t), Encode(QUOTED, t));
  }

  lemma {:induction false} EncodeUntouched(escaped: set<char>, t: string)
    requires forall c :: c in t ==> c !in escaped
    ensures Encode(escaped, t) == t
  {
    if t != "" {
      assert t[0] in t;
      EncodeUntouched(escaped, t[1..]);
    }
  }

  /** A piece of an entity found in an encoded text stood there before encoding. */
  lemma {:induction false} PrefixReflected(piece: string, escaped: set<char>, u: string)
    requires '&' !in piece && escaped <= QUOTED && piece <= Encode(escaped, u)
    ensures piece <= u
  {
    if piece != "" && u != "" {
      if u[0] in escaped { NamesHoldNoMarkup(u[0]); }
      assert Encode(escaped, u)[0] == Code(escaped, u[0])[0] && piece[0] in piece;
      assert Encode(escaped, u)[1..] == Encode(escaped, u[1..]);
      PrefixReflected(piece[1..], escaped, u[1..]);
    }
  }

  lemma NamesDiffer(c: char, d: char, rest: string)
    requires c in QUOTED && d in QUOTED && c != d
    ensures !(Name(c) <= Name(d) + rest)
  {
    var s := Name(d) + rest;
    assert s[1] == Name(d)[1] && s[2] == Name(d)[2];
    assert Name(c)[1] != Name(d)[1];
  }

  lemma NameIsPlain(c: char, escaped: set<char>)
    requires c in QUOTED && escaped <= QUOTED
    ensures |Name(c)| > 1 && Name(c)[0] == '&' && '&' !in Name(c)[1..]
    ensures Encode(escaped, Name(c)) == Name(c)
  {
    NamesHoldNoMarkup(c);
    EncodeUntouched(escaped, Name(c));
  }

  ghost predicate Decodes(c: char, escaped: set<char>, t: string) {
    Replace(Literal(Name(c), [c]), Encode(escaped, t)) == Encode(escaped - {c}, Replace(Literal(Name(c), [c]), t))
  }

  /** Decoding one escaped character, whatever literal entities the text itself spells out. */
  lemma {:induction false} DecodeOne(c: char, escaped: set<char>, t: string)
    requires c in escaped && escaped <= QUOTED
    ensures Decodes(c, escaped, t)
    decreases |t|
  {
    NameIsPlain(c, escaped);
    if t != "" {
      if Name(c) <= t {
        var rest := t[|Name(c)|..];
        DecodeOne(c, escaped, rest);
        DecodeName(c, escaped, rest);
        assert t == Name(c) + rest;
      } else {
        DecodeOne(c, escaped, t[1..]);
        DecodeChar(c, escaped, t);
      }
    }
  }

  /** The text spells the entity out: the encoding leaves it alone and both sides decode it. */
  lemma DecodeName(c: char, escaped: set<char>, rest: string)
    requires c in escaped && escaped <= QUOTED && Decodes(c, escaped, rest)
    ensures Decodes(c, escaped, Name(c) + rest)
  {
    var rule := Literal(Name(c), [c]);
    NameIsPlain(c, escaped);
    EncodeConcat(escaped, Name(c), rest);
    Rewritten(rule, Name(c), Encode(escaped, rest), [c]);
    Rewritten(rule, Name(c), rest, [c]);
    EncodeHead(escaped - {c}, c, Replace(rule, rest));
  }

  lemma DecodeChar(c: char, escaped: set<char>, t: string)
    requires c in escaped && escaped <= QUOTED && t != "" && !(Name(c) <= t) && Decodes(c, escaped, t[1..])
    ensures Decodes(c, escaped, t)
  {
    var rule, rest := Literal(Name(c), [c]), t[1..];
    NameIsPlain(c, escaped);
    HeadKept(rule, t);
    EncodeCode(escaped - {c}, t[0], Replace(rule, rest));
    if t[0] == c {
      Rewritten(rule, Name(c), Encode(escaped, rest), [c]);
    } else if t[0] in escaped {
      OtherNamePasses(c, t[0], Encode(escaped, rest));
    } else {
      PlainHeadKept(c, escaped, t);
    }
  }

  lemma PlainHeadKept(c: char, escaped: set<char>, t: string)
    requires c in escaped && escaped <= QUOTED && t != "" && !(Name(c) <= t) && t[0] !in escaped
    ensures Replace(Literal(Name(c), [c]), Encode(escaped, t))
         == [t[0]] + Replace(Literal(Name(c), [c]), Encode(escaped, t[1..]))
  {
    NameIsPlain(c, escaped);
    assert Encode(escaped, t)[1..] == Encode(escaped, t[1..]);
    if t[0] == '&' && Name(c) <= Encode(escaped, t) {
      assert Name(c)[1..] <= Encode(escaped, t[1..]);
      PrefixReflected(Name(c)[1..], escaped, t[1..]);
    }
    HeadKept(Literal(Name(c), [c]), Encode(escaped, t));
  }

  lemma Rewritten(rule: Rule, pattern: string, rest: string, text: string)
    requires rule == Literal(pattern, text) && pattern != ""
    ensures Replace(rule, pattern + rest) == text + Replace(rule, rest)
  {
    assert (pattern + rest)[|pattern|..] == rest;
  }

  lemma EncodeHead(escaped: set<char>, c: char, rest: string)
    requires c !in escaped
    ensures Encode(escaped, [c] + rest) == [c] + Encode(escaped, rest)
  {
    assert ([c] + rest)[1..] == rest;
  }

  lemma EncodeCode(escaped: set<char>, c: char, rest: string)
    ensures Encode(escaped, [c] + rest) == Code(escaped, c) + Encode(escaped, rest)
  {
    assert ([c] + rest)[1..] == rest;
  }

  lemma OtherNamePasses(c: char, d: char, rest: string)
    requires c in QUOTED && d in QUOTED && c != d
    ensures Replace(Literal(Name(c), [c]), Name(d) + rest) == Name(d) + Replace(Literal(Name(c), [c]), rest)
  {
    var rule := Literal(Name(c), [c]);
    NamesHoldNoMarkup(d);
    NameIsPlain(c, {});
    forall after ensures MatchAt(rule, Name(d) + after).NoMatch? { NamesDiffer(c, d, after); }
    PassMarkup(rule, Name(d));
  }

  /** One pass of the loop over the named entities. */
  lemma NextRule(rules: seq<Rule>, k: nat, s: string)
    requires k < |rules|
    ensures ReplaceAll(rules[k..], s) == ReplaceAll(rules[k + 1..], Replace(rules[k], s))
  {
    assert rules[k..][1..] == rules[k + 1..];
  }

  lemma LastFour(rules: seq<Rule>, s1: string, s2: string, s3: string, s4: string)
    requires |rules| >= 5
    requires s2 == Replace(rules[1], s1) && s3 == Replace(rules[2], s2) && s4 == Replace(rules[3], s3)
    ensures ReplaceAll(rules[1..], s1) == ReplaceAll(rules[5..], Replace(rules[4], s4))
  {
    NextRule(rules, 1, s1);
    NextRule(rules, 2, s2);
    NextRule(rules, 3, s3);
    NextRule(rules, 4, s4);
  }

  lemma DecodeStep(rule: Rule, c: char, escaped: set<char>, t: string)
    requires rule == Literal(Name(c), [c]) && c in escaped && escaped <= QUOTED
    ensures Replace(rule, Encode(escaped, t)) == Encode(escaped - {c}, Replace(rule, t))
  {
    DecodeOne(c, escaped, t);
  }

  /** Decoding an escaped text is decoding, in the raw text, the references it spells out itself. */
  lemma EntitiesUndone(t: string)
    ensures ReplaceAll(NAMED_ENTITIES, Inlined(t)) == ReplaceAll(References(), t)
  {
    var rules := NAMED_ENTITIES;
    assert rules[0..] == rules;
    NextRule(rules, 0, Inlined(t));
    AmpersandDecoded(t);
    QuotedUndone(rules, t);
  }

  lemma QuotedUndone(rules: seq<Rule>, t: string)
    requires rules == NAMED_ENTITIES
    ensures ReplaceAll(rules[1..], Encode(QUOTED, t)) == ReplaceAll(rules[1..], t)
  {
    var t1 := Replace(rules[1], t);
    var t2 := Replace(rules[2], t1);
    var t3 := Replace(rules[3], t2);
    var q1, q2, q3 := QUOTED - {'<'}, QUOTED - {'<'} - {'>'}, QUOTED - {'<'} - {'>'} - {'"'};
    assert Quotes(rules);
    DecodedInTurn(rules, t, t1, t2, t3);
    SameAfterFour(rules, t, t1, t2, t3, Encode(QUOTED, t), Encode(q1, t1), Encode(q2, t2), Encode(q3, t3));
  }

  /** The four entities that escaping uses, besides &amp;. */
  ghost predicate Quotes(rules: seq<Rule>) {
    && |rules| >= 5
    && rules[1] == Literal(Name('<'), "<") && rules[2] == Literal(Name('>'), ">")
    && rules[3] == Literal(Name('"'), "\"") && rules[4] == Literal(Name('\''), "'")
  }

  lemma DecodedInTurn(rules: seq<Rule>, t: string, t1: string, t2: string, t3: string)
    requires Quotes(rules)
    requires t1 == Replace(rules[1], t) && t2 == Replace(rules[2], t1) && t3 == Replace(rules[3], t2)
    ensures var q1, q2, q3 := QUOTED - {'<'}, QUOTED - {'<'} - {'>'}, QUOTED - {'<'} - {'>'} - {'"'};
      && Replace(rules[1], Encode(QUOTED, t)) == Encode(q1, t1)
      && Replace(rules[2], Encode(q1, t1)) == Encode(q2, t2)
      && Replace(rules[3], Encode(q2, t2)) == Encode(q3, t3)
      && Replace(rules[4], Encode(q3, t3)) == Replace(rules[4], t3)
  {
    var q1, q2, q3 := QUOTED - {'<'}, QUOTED - {'<'} - {'>'}, QUOTED - {'<'} - {'>'} - {'"'};
    DecodeStep(rules[1], '<', QUOTED, t);
    DecodeStep(rules[2], '>', q1, t1);
    DecodeStep(rules[3], '"', q2, t2);
    DecodeStep(rules[4], '\'', q3, t3);
    assert q3 - {'\''} == {};
    EncodeNothing(Replace(rules[4], t3));
  }

  lemma SameAfterFour(rules: seq<Rule>, t: string, t1: string, t2: string, t3: string,
                      e: string, e1: string, e2: string, e3: string)
    requires |rules| >= 5
    requires t1 == Replace(rules[1], t) && t2 == Replace(rules[2], t1) && t3 == Replace(rules[3], t2)
    requires e1 == Replace(rules[1], e) && e2 == Replace(rules[2], e1) && e3 == Replace(rules[3], e2)
    requires Replace(rules[4], e3) == Replace(rules[4], t3)
    ensures ReplaceAll(rules[1..], e) == ReplaceAll(rules[1..], t)
  {
    LastFour(rules, t, t1, t2, t3);
    LastFour(rules, e, e1, e2, e3);
  }

  // ---------------------------------------------------------------- whole messages

  lemma {:induction false} TokensBreakPass(tokens: seq<Token>, emoji: map<string, string>)
    ensures Becomes(LineBreak, RenderTokens(tokens, emoji), Pieces(tokens, emoji))
  {
    if tokens == [] {
      PassNothing(LineBreak);
    } else {
      var r := RenderingOf(tokens[0], emoji);
      BreakPass(r, tokens[0].value);
      TokensBreakPass(tokens[1..], emoji);
      BecomesGlued(LineBreak, Printed(r, tokens[0].value), Piece(r, tokens[0].value),
                   RenderTokens(tokens[1..], emoji), Pieces(tokens[1..], emoji));
    }
  }

  lemma {:induction false} TokensGapPass(tokens: seq<Token>, emoji: map<string, string>)
    ensures Becomes(ParagraphGap, Pieces(tokens, emoji), Pieces(tokens, emoji))
  {
    if tokens == [] {
      PassNothing(ParagraphGap);
    } else {
      var p, rest := Piece(RenderingOf(tokens[0], emoji), tokens[0].value), Pieces(tokens[1..], emoji);
      GapPass(RenderingOf(tokens[0], emoji), tokens[0].value);
      TokensGapPass(tokens[1..], emoji);
      BecomesGlued(ParagraphGap, p, p, rest, rest);
    }
  }

  /** Emoji tokens are shortcodes; all the parser needs of them is that they do not end in '='. */
  ghost predicate EmojiSafe(tokens: seq<Token>) {
    forall t :: t in tokens && t.kind == "emoji" ==> t.value == "" || t.value[|t.value| - 1] != '='
  }

  lemma {:induction false} TokensImagePass(tokens: seq<Token>, emoji: map<string, string>)
    requires EmojiSafe(tokens)
    ensures Becomes(Image, Pieces(tokens, emoji), Linkages(tokens, emoji))
  {
    if tokens == [] {
      PassNothing(Image);
    } else {
      var r := RenderingOf(tokens[0], emoji);
      ImagePass(r, tokens[0].value);
      TokensImagePass(tokens[1..], emoji);
      BecomesGlued(Image, Piece(r, tokens[0].value), Linkage(r, tokens[0].value),
                   Pieces(tokens[1..], emoji), Linkages(tokens[1..], emoji));
    }
  }

  lemma {:induction false} TokensTagPass(tokens: seq<Token>, emoji: map<string, string>)
    ensures Becomes(Tag, Linkages(tokens, emoji), Inlined(Values(tokens)))
  {
    if tokens == [] {
      PassNothing(Tag);
    } else {
      var r, v := RenderingOf(tokens[0], emoji), tokens[0].value;
      TagPass(r, v);
      TokensTagPass(tokens[1..], emoji);
      EncodeConcat(INLINE, v, Values(tokens[1..]));
      BecomesGlued(Tag, Linkage(r, v), Inlined(v), Linkages(tokens[1..], emoji), Inlined(Values(tokens[1..])));
    }
  }

  lemma Paragraph(rule: Rule, body: string, body': string)
    requires rule.LineBreak? || rule.ParagraphGap? || rule.Image?
    requires Becomes(rule, body, body')
    ensures Replace(rule, "<p>" + body + "</p>") == "<p>" + body' + "</p>"
  {
    PassForeign(rule, "<p>");
    ClosingTag(rule);
    Enclosed(rule, "<p>", body, body', "</p>");
  }

  lemma Enclosed(rule: Rule, open: string, body: string, body': string, close: string)
    requires Becomes(rule, open, open) && Becomes(rule, body, body') && Replace(rule, close) == close
    ensures Replace(rule, open + body + close) == open + body' + close
  {
    BecomesGlued(rule, open, open, body, body');
    assert Replace(rule, (open + body) + close) == (open + body') + Replace(rule, close);
  }

  /** The one </p> of a printed message is not followed by another paragraph. */
  lemma ClosingTag(rule: Rule)
    requires rule.LineBreak? || rule.ParagraphGap? || rule.Image?
    ensures Replace(rule, "</p>") == "</p>"
  {
    var close := "</p>";
    forall i | 0 <= i < |close| ensures MatchAt(rule, (close + "")[i..]).NoMatch? {
      var s := (close + "")[i..];
      if i > 0 {
        assert s[0] == close[i];
        NoMatchElsewhere(rule, s);
      } else {
        assert s == close && s[4..] == "";
        assert s[1] != "<br"[1] && s[1] != "<img"[1];
      }
    }
    PassOver(rule, close, "");
    assert close + "" == close;
  }

  lemma ParagraphStripped(body: string, text: string)
    requires Becomes(Tag, body, text)
    ensures Replace(Tag, "<p>" + body + "</p>") == text
  {
    TagStripped("p");
    TagStripped("/p");
    assert "<" + "p" + ">" == "<p>" && "<" + "/p" + ">" == "</p>";
    BecomesGlued(Tag, "<p>", "", body, text);
    BecomesGlued(Tag, "<p>" + body, "" + text, "</p>", "");
    assert "" + text + "" == text;
    BecomesAlone(Tag, "<p>" + body + "</p>", text);
  }

  /** Main theorem: for every token list and every emoji map, the parser gives back the display
      text, with the references it spells out decoded and its ends trimmed. Links, mentions,
      inline emoji, escapes and line breaks all cancel out. */
  lemma {:induction false} ParseOfPrintedTokens(tokens: seq<Token>, emoji: map<string, string>)
    requires EmojiSafe(tokens)
    ensures HtmlToText(TokensToOwncastHtml(tokens, emoji)) == Finish(ReplaceAll(References(), Values(tokens)))
  {
    TokensBreakPass(tokens, emoji);
    Paragraph(LineBreak, RenderTokens(tokens, emoji), Pieces(tokens, emoji));
    TokensGapPass(tokens, emoji);
    Paragraph(ParagraphGap, Pieces(tokens, emoji), Pieces(tokens, emoji));
    TokensImagePass(tokens, emoji);
    Paragraph(Image, Pieces(tokens, emoji), Linkages(tokens, emoji));
    TokensTagPass(tokens, emoji);
    ParagraphStripped(Linkages(tokens, emoji), Inlined(Values(tokens)));
    EntitiesUndone(Values(tokens));
  }

  /** The same for plain text, which is printed as one text token would be. */
  lemma {:induction false} ParseOfPrintedText(t: string)
    ensures HtmlToText(TextToOwncastHtml(t)) == Finish(ReplaceAll(References(), t))
  {
    var tokens := [Token("text", t, None)];
    assert tokens[1..] == [] && Values(tokens) == t + "" && t + "" == t;
    assert RenderTokens(tokens, map[]) == EscapeText(t) + "" && EscapeText(t) + "" == EscapeText(t);
    ParseOfPrintedTokens(tokens, map[]);
  }

  // ---------------------------------------------------------------- exactly which texts survive

  ghost predicate Occurs(rule: Rule, t: string) {
    exists i :: 0 <= i < |t| && MatchAt(rule, t[i..]).Match?
  }

  /** The text spells out a reference the parser would decode: one of the six named entities other
      than &amp;, or a numeric one. */
  ghost predicate SpellsReference(t: string) {
    (exists k :: 0 <= k < |References()| && Occurs(References()[k], t)) || Occurs(NumericRef, t)
  }

  predicate Shortens(rule: Rule) {
    rule.NumericRef? || (rule.Literal? && |rule.text| < |rule.pattern|)
  }

  lemma {:induction false} ReplaceShortens(rule: Rule, t: string)
    requires Shortens(rule)
    ensures |Replace(rule, t)| <= |t|
    ensures Occurs(rule, t) ==> |Replace(rule, t)| < |t|
    ensures !Occurs(rule, t) ==> Replace(rule, t) == t
    decreases |t|
  {
    if t != "" {
      assert t[0..] == t;
      match MatchAt(rule, t)
      case Match(n, text) =>
        ReplaceShortens(rule, t[n..]);
        assert |text| < n;
      case NoMatch =>
        ReplaceShortens(rule, t[1..]);
        OccursLater(rule, t);
    }
  }

  lemma OccursLater(rule: Rule, t: string)
    requires t != "" && MatchAt(rule, t).NoMatch?
    ensures Occurs(rule, t) <==> Occurs(rule, t[1..])
  {
    var rest := t[1..];
    if Occurs(rule, t) {
      var i :| 0 <= i < |t| && MatchAt(rule, t[i..]).Match?;
      assert i > 0 by { assert t[0..] == t; }
      assert rest[i - 1..] == t[i..];
    }
    if Occurs(rule, rest) {
      var i :| 0 <= i < |rest| && MatchAt(rule, rest[i..]).Match?;
      assert rest[i..] == t[i + 1..];
    }
  }

  lemma {:induction false} ReplaceAllShortens(rules: seq<Rule>, t: string)
    requires forall k :: 0 <= k < |rules| ==> Shortens(rules[k])
    ensures |ReplaceAll(rules, t)| <= |t|
    ensures SomeOccur(rules, t) ==> |ReplaceAll(rules, t)| < |t|
    ensures !SomeOccur(rules, t) ==> ReplaceAll(rules, t) == t
  {
    if rules != [] {
      ReplaceShortens(rules[0], t);
      ReplaceAllShortens(rules[1..], Replace(rules[0], t));
      SomeOccurSplit(rules, t);
    }
  }

  ghost predicate SomeOccur(rules: seq<Rule>, t: string) { exists k :: 0 <= k < |rules| && Occurs(rules[k], t) }

  lemma SomeOccurSplit(rules: seq<Rule>, t: string)
    requires rules != []
    ensures SomeOccur(rules, t) <==> Occurs(rules[0], t) || SomeOccur(rules[1..], t)
  {
    if SomeOccur(rules, t) {
      var k :| 0 <= k < |rules| && Occurs(rules[k], t);
      assert k > 0 ==> rules[1..][k - 1] == rules[k];
    }
    if SomeOccur(rules[1..], t) {
      var k :| 0 <= k < |rules[1..]| && Occurs(rules[1..][k], t);
      assert rules[k + 1] == rules[1..][k];
    }
  }

  lemma {:induction false} ThrowsOnlyOnReferences(t: string)
    ensures Throws(t) ==> Occurs(NumericRef, t)
    decreases |t|
  {
    if t != "" {
      assert t[0..] == t;
      if MatchAt(NumericRef, t).NoMatch? {
        ThrowsOnlyOnReferences(t[1..]);
        if Occurs(NumericRef, t[1..]) {
          var i :| 0 <= i < |t[1..]| && MatchAt(NumericRef, t[1..][i..]).Match?;
          assert t[1..][i..] == t[i + 1..];
        }
      }
    }
  }

  lemma {:induction false} TrimStartFacts(s: string)
    ensures |TrimStart(s)| <= |s|
    ensures TrimStart(s) != "" ==> !IsSpace(TrimStart(s)[0])
  {
    if s != "" && IsSpace(s[0]) { TrimStartFacts(s[1..]); }
  }

  lemma {:induction false} TrimEndFacts(s: string)
    ensures |TrimEnd(s)| <= |s| && TrimEnd(TrimEnd(s)) == TrimEnd(s)
    ensures s != "" && !IsSpace(s[0]) ==> TrimEnd(s) != "" && TrimEnd(s)[0] == s[0]
  {
    if s != "" && IsSpace(s[|s| - 1]) { TrimEndFacts(s[..|s| - 1]); }
  }

  lemma TrimFacts(s: string)
    ensures |Trim(s)| <= |s| && Trim(Trim(s)) == Trim(s)
  {
    TrimStartFacts(s);
    TrimEndFacts(TrimStart(s));
  }

  /** Main theorem: a printed message comes back as its own display text if and only if that text
      is trimmed and spells out no reference other than &amp;. */
  lemma {:induction false} RoundTripExactly(tokens: seq<Token>, emoji: map<string, string>)
    requires EmojiSafe(tokens)
    ensures HtmlToText(TokensToOwncastHtml(tokens, emoji)) == Success(Values(tokens))
       <==> Trim(Values(tokens)) == Values(tokens) && !SpellsReference(Values(tokens))
  {
    ParseOfPrintedTokens(tokens, emoji);
    FinishExactly(Values(tokens));
  }

  lemma FinishExactly(t: string)
    ensures Finish(ReplaceAll(References(), t)) == Success(t) <==> Trim(t) == t && !SpellsReference(t)
  {
    var u := ReplaceAll(References(), t);
    ReplaceAllShortens(References(), t);
    ReplaceShortens(NumericRef, u);
    ThrowsOnlyOnReferences(u);
    TrimFacts(Replace(NumericRef, u));
  }

  lemma NothingToDecode(t: string)
    requires '&' !in t
    ensures Finish(ReplaceAll(References(), t)) == Success(Trim(t))
  {
    RulesPass(References(), t);
    forall i | 0 <= i < |t| ensures MatchAt(NumericRef, t[i..]).NoMatch? {
      assert t[i..][0] == t[i];
      NoMatchElsewhere(NumericRef, t[i..]);
    }
    ReplaceShortens(NumericRef, t);
    ThrowsOnlyOnReferences(t);
  }

  /** A message that spells out "&lt;" is one that does not survive: it comes back as "<". */
  lemma LiteralEntityIsLost(t: string)
    requires t == "&lt;"
    ensures HtmlToText(TextToOwncastHtml(t)) == Success("<")
  {
    ParseOfPrintedText(t);
    FirstReferenceDecoded();
    LessThanStays("<");
  }

  lemma LessThanStays(u: string)
    requires u == "<"
    ensures Finish(ReplaceAll(References(), u)) == Success(u)
  {
    NothingToDecode(u);
    TrimStartFacts(u);
    TrimEndFacts(u);
  }

  lemma FirstReferenceDecoded()
    ensures ReplaceAll(References(), "&lt;") == ReplaceAll(References(), "<")
  {
    var first := References()[0];
    assert MatchAt(first, "&lt;") == Match(4, "<") && "&lt;"[4..] == "";
    assert Replace(first, "&lt;") == "<" + "" == "<";
    assert Replace(first, "<") == "<" by {
      PassPlain(first, "<");
      BecomesAlone(first, "<", "<");
    }
  }

  // ---------------------------------------------------------------- what each entity is read as

  /** The rule replaces the entity, or passes it by wherever it stands. */
  ghost predicate ReadsOrPasses(rule: Rule, entity: string, text: string) {
    && rule.Literal? && rule.pattern != "" && rule.pattern[0] == '&'
    && (rule == Literal(entity, text) || Apart(rule.pattern, entity))
  }

  /** Neither is the beginning of the other. */
  ghost predicate Apart(p: string, q: string) { exists i :: 0 <= i < |p| && i < |q| && p[i] != q[i] }

  lemma ApartPasses(rule: Rule, entity: string, rest: string)
    requires rule.Literal? && Apart(rule.pattern, entity)
    ensures MatchAt(rule, entity + rest).NoMatch?
  {
    var i :| 0 <= i < |rule.pattern| && i < |entity| && rule.pattern[i] != entity[i];
    assert (entity + rest)[i] == entity[i];
  }

  lemma InPlace(rule: Rule, entity: string, text: string, a: string, b: string)
    requires Becomes(rule, entity, text) && FirstChar(rule) !in a && FirstChar(rule) !in b
    ensures Replace(rule, a + entity + b) == a + text + b
  {
    PassPlain(rule, a);
    PassPlain(rule, b);
    BecomesGlued(rule, a, a, entity, text);
    BecomesGlued(rule, a + entity, a + text, b, b);
    BecomesAlone(rule, a + entity + b, a + text + b);
  }

  lemma ItsRuleReads(rule: Rule, entity: string, text: string, a: string, b: string)
    requires '&' !in a && '&' !in b && entity != "" && entity[0] == '&' && rule == Literal(entity, text)
    ensures Replace(rule, a + entity + b) == a + text + b
  {
    forall rest ensures Replace(rule, entity + rest) == text + Replace(rule, rest) {
      Rewritten(rule, entity, rest, text);
    }
    InPlace(rule, entity, text, a, b);
  }

  lemma OtherRulesPass(rule: Rule, entity: string, a: string, b: string)
    requires '&' !in a && '&' !in b && entity != "" && '&' !in entity[1..]
    requires rule.Literal? && rule.pattern != "" && rule.pattern[0] == '&' && Apart(rule.pattern, entity)
    ensures Replace(rule, a + entity + b) == a + entity + b
  {
    forall rest ensures MatchAt(rule, entity + rest).NoMatch? { ApartPasses(rule, entity, rest); }
    PassMarkup(rule, entity);
    InPlace(rule, entity, entity, a, b);
  }

  lemma OneRulePasses(rule: Rule, t: string)
    requires rule.Literal? && rule.pattern != "" && rule.pattern[0] == '&' && '&' !in t
    ensures Replace(rule, t) == t
  {
    PassPlain(rule, t);
    BecomesAlone(rule, t, t);
  }

  lemma {:induction false} RulesPass(rules: seq<Rule>, t: string)
    requires forall r :: r in rules ==> r.Literal? && r.pattern != "" && r.pattern[0] == '&'
    requires '&' !in t
    ensures ReplaceAll(rules, t) == t
    decreases |rules|
  {
    if rules != [] {
      assert rules[0] in rules;
      OneRulePasses(rules[0], t);
      RulesPass(rules[1..], t);
    }
  }

  lemma {:induction false} RulesRead(rules: seq<Rule>, entity: string, text: string, a: string, b: string)
    requires '&' !in a && '&' !in b && entity != "" && entity[0] == '&' && '&' !in entity[1..] && '&' !in text
    requires Literal(entity, text) in rules && forall r :: r in rules ==> ReadsOrPasses(r, entity, text)
    ensures ReplaceAll(rules, a + entity + b) == a + text + b
    decreases |rules|
  {
    var rule := rules[0];
    assert rule in rules && forall r :: r in rules <==> r == rule || r in rules[1..];
    if rule == Literal(entity, text) {
      ItsRuleReads(rule, entity, text, a, b);
      RulesPass(rules[1..], a + text + b);
    } else {
      OtherRulesPass(rule, entity, a, b);
      RulesRead(rules[1..], entity, text, a, b);
    }
  }

  lemma PassesBy(rule: Rule, p: string, q: string, entity: string, text: string, i: nat)
    requires rule == Literal(p, q) && p != "" && p[0] == '&'
    requires i < |p| && i < |entity| && p[i] != entity[i]
    ensures ReadsOrPasses(rule, entity, text)
  {
  }

  lemma ApostropheReads(k: nat)
    requires k < |NAMED_ENTITIES|
    ensures ReadsOrPasses(NAMED_ENTITIES[k], "&apos;", "'")
  {
    PassesBy(Literal("&amp;", "&"), "&amp;", "&", "&apos;", "'", 2);
    PassesBy(Literal("&lt;", "<"), "&lt;", "<", "&apos;", "'", 1);
    PassesBy(Literal("&gt;", ">"), "&gt;", ">", "&apos;", "'", 1);
    PassesBy(Literal("&quot;", "\""), "&quot;", "\"", "&apos;", "'", 1);
    PassesBy(Literal("&#39;", "'"), "&#39;", "'", "&apos;", "'", 1);
    PassesBy(Literal("&nbsp;", " "), "&nbsp;", " ", "&apos;", "'", 1);
  }

  lemma SpaceReads(k: nat)
    requires k < |NAMED_ENTITIES|
    ensures ReadsOrPasses(NAMED_ENTITIES[k], "&nbsp;", " ")
  {
    PassesBy(Literal("&amp;", "&"), "&amp;", "&", "&nbsp;", " ", 1);
    PassesBy(Literal("&lt;", "<"), "&lt;", "<", "&nbsp;", " ", 1);
    PassesBy(Literal("&gt;", ">"), "&gt;", ">", "&nbsp;", " ", 1);
    PassesBy(Literal("&quot;", "\""), "&quot;", "\"", "&nbsp;", " ", 1);
    PassesBy(Literal("&#39;", "'"), "&#39;", "'", "&nbsp;", " ", 1);
    PassesBy(Literal("&apos;", "'"), "&apos;", "'", "&nbsp;", " ", 1);
  }

  /** The two entities that the bridge never writes itself, but other senders do. */
  lemma ForeignEntitiesRead(entity: string, text: string, a: string, b: string)
    requires (entity == "&apos;" && text == "'") || (entity == "&nbsp;" && text == " ")
    requires '&' !in a && '&' !in b
    ensures ReplaceAll(NAMED_ENTITIES, a + entity + b) == a + text + b
  {
    var rules := NAMED_ENTITIES;
    forall rule | rule in rules ensures ReadsOrPasses(rule, entity, text) {
      var k :| 0 <= k < |rules| && rules[k] == rule;
      if text == " " { SpaceReads(k); } else { ApostropheReads(k); }
    }
    assert Literal(entity, text) == rules[if text == " " then 6 else 5];
    RulesRead(rules, entity, text, a, b);
  }

  // ---------------------------------------------------------------- numeric references

  predicate AllDigits(d: string) { d != "" && forall i :: 0 <= i < |d| ==> '0' <= d[i] <= '9' }

  lemma {:induction false} DigitsUpTo(d: string, rest: string)
    requires forall i :: 0 <= i < |d| ==> '0' <= d[i] <= '9'
    requires rest != "" && !('0' <= rest[0] <= '9')
    ensures Digits(d + rest) == |d|
  {
    if d == "" {
      assert d + rest == rest;
    } else {
      assert (d + rest)[1..] == d[1..] + rest;
      DigitsUpTo(d[1..], rest);
    }
  }

  function Reference(d: string): string { "&#" + d + ";" }

  lemma ReferenceMatches(d: string, rest: string)
    requires AllDigits(d)
    ensures var s := Reference(d) + rest;
      && MatchAt(NumericRef, s) == Match(|Reference(d)|, FromCodePoint(Number(d)))
      && s[2..][..Digits(s[2..])] == d && s[|Reference(d)|..] == rest
  {
    var s := Reference(d) + rest;
    assert s[2..] == d + (";" + rest) && s[..2] == "&#";
    DigitsUpTo(d, ";" + rest);
    assert (d + (";" + rest))[..|d|] == d;
    assert s[2 + |d|] == ';';
  }

  /** A character written as a numeric reference is read as that character; a number that is no code point makes
      the parser throw. */
  lemma NumericReferenceRead(d: string, a: string, b: string)
    requires AllDigits(d) && '&' !in a && '&' !in b
    ensures var n, s := Number(d), a + Reference(d) + b;
      && (Throws(s) <==> n > 0x10FFFF)
      && (n <= 0x10FFFF && !(0xD800 <= n < 0xE000) ==> Replace(NumericRef, s) == a + [n as char] + b)
  {
    forall rest ensures MatchAt(NumericRef, Reference(d) + rest) == Match(|Reference(d)|, FromCodePoint(Number(d))) {
      ReferenceMatches(d, rest);
    }
    PassMatch(NumericRef, Reference(d), FromCodePoint(Number(d)));
    InPlace(NumericRef, Reference(d), FromCodePoint(Number(d)), a, b);
    ThrowsBehind(a, Reference(d) + b);
    assert a + Reference(d) + b == a + (Reference(d) + b);
    ReferenceMatches(d, b);
    ThrowsBehind(b, "");
    assert b + "" == b;
  }

  lemma {:induction false} ThrowsBehind(a: string, rest: string)
    requires '&' !in a
    ensures Throws(a + rest) <==> Throws(rest)
  {
    if a == "" {
      assert a + rest == rest;
    } else {
      assert (a + rest)[0] == a[0] && (a + rest)[1..] == a[1..] + rest;
      NoMatchElsewhere(NumericRef, a + rest);
      ThrowsBehind(a[1..], rest);
    }
  }
}
