/** How a whole message reads once it has been processed: what stands in front of a token decides how the
    token is shown, and which messages are shown as tokens at all. */
module MessageDisplay {
  import opened ContentTokens
  import opened ContentPipeline
  import opened OwncastHtml
  import opened MessageRoundTrip
  import opened BridgeProcessors
  import opened PipelineCompleteness
  import opened Options
  import opened Patterns

  // ---------------------------------------------------------------- tokens in their places

  /** The token is right for the part of the message in front of it. */
  ghost predicate PlacedAt(such: (string, Token) -> bool, before: string, tokens: seq<Token>, i: nat)
    requires i < |tokens|
  {
    such(before + SourceTexts(tokens[..i]), tokens[i])
  }

  ghost predicate Placed(such: (string, Token) -> bool, before: string, tokens: seq<Token>) {
    forall i :: 0 <= i < |tokens| ==> PlacedAt(such, before, tokens, i)
  }

  ghost predicate TextFits(such: (string, Token) -> bool) {
    forall before: string, value: string :: such(before, TextToken(value))
  }

  /** The token the processor makes of its match is right for what stands in front of the match. */
  ghost predicate FitsAt(p: Processor, such: (string, Token) -> bool, base: string, value: string, from: nat, n: nat) {
    var found := p.exec(value, from);
    found.Some? && found.value.index + found.value.length <= |value| ==>
      var s := found.value;
      such(base + value[..s.index], TokenOf(p.process(n, value[s.index..s.index + s.length], s.index, value)))
  }

  ghost predicate Fits(p: Processor, such: (string, Token) -> bool) {
    forall base: string, value: string, from: nat, n: nat :: FitsAt(p, such, base, value, from, n)
  }

  lemma PushPlaced(such: (string, Token) -> bool, tokens: seq<Token>, t: Token)
    requires Placed(such, "", tokens) && such(SourceTexts(tokens), t)
    ensures Placed(such, "", tokens + [t])
  {
    var all := tokens + [t];
    forall i | 0 <= i < |all| ensures PlacedAt(such, "", all, i) {
      assert "" + SourceTexts(all[..i]) == SourceTexts(all[..i]);
      if i < |tokens| {
        assert all[..i] == tokens[..i] && PlacedAt(such, "", tokens, i);
      } else {
        assert all[..i] == tokens;
      }
    }
  }

  /** Everything of the text up to there is pushed, and in its place. */
  ghost predicate UpTo(such: (string, Token) -> bool, w: Work, base: string, value: string, from: nat) {
    from <= |value| && Placed(such, "", w.tokens) && SourceTexts(w.tokens) == base + value[..from]
  }

  lemma CutPlaced(p: Processor, such: (string, Token) -> bool, value: string, from: nat, s: Span, w: Work, base: string)
    requires Faithful(p) && TextFits(such) && Fits(p, such)
    requires from <= s.index && s.index + s.length <= |value| && p.exec(value, from) == Some(s)
    requires UpTo(such, w, base, value, from)
    ensures UpTo(such, PushMatch(p, value, s, PushText(w, value[from..s.index])), base, value, s.index + s.length)
  {
    var w1 := PushText(w, value[from..s.index]);
    PushPlaced(such, w.tokens, TextToken(value[from..s.index]));
    PushTextConserves(w, value[from..s.index]);
    Onward(base, value, from, s.index);
    assert FitsAt(p, such, base, value, from, w1.calls);
    PushPlaced(such, w1.tokens, TokenOf(p.process(w1.calls, value[s.index..s.index + s.length], s.index, value)));
    PushMatchConserves(p, value, s, w1);
    Onward(base, value, s.index, s.index + s.length);
  }

  lemma TailPlaced(such: (string, Token) -> bool, w: Work, base: string, value: string, from: nat)
    requires TextFits(such) && UpTo(such, w, base, value, from)
    ensures Placed(such, "", PushText(w, value[from..]).tokens)
  {
    PushPlaced(such, w.tokens, TextToken(value[from..]));
  }

  lemma Onward(base: string, value: string, i: nat, j: nat)
    requires i <= j <= |value|
    ensures base + value[..i] + value[i..j] == base + value[..j]
  {
  }

  lemma NextSpan(p: Processor, value: string, from: nat, w: Work)
    requires Matches(p) && from <= |value| && AllSpans(p, value, from) != []
    ensures var spans := AllSpans(p, value, from);
      var s := spans[0];
      var end := s.index + s.length;
      && p.exec(value, from) == Some(s) && from <= s.index && end <= |value|
      && SplitAt(p, value, spans, from, w)
         == SplitAt(p, value, AllSpans(p, value, end), end, PushMatch(p, value, s, PushText(w, value[from..s.index])))
  {
    var s := p.exec(value, from).value;
    assert AllSpans(p, value, from)[1..] == AllSpans(p, value, s.index + s.length);
  }

  lemma {:induction false} SplitPlaced(p: Processor, such: (string, Token) -> bool, value: string, from: nat, w: Work,
      base: string)
    requires Matches(p) && Faithful(p) && TextFits(such) && Fits(p, such) && from <= |value|
    requires UpTo(such, w, base, value, from)
    ensures Placed(such, "", SplitAt(p, value, AllSpans(p, value, from), from, w).tokens)
    decreases |value| - from
  {
    var spans := AllSpans(p, value, from);
    if spans == [] {
      TailPlaced(such, w, base, value, from);
    } else {
      var s := spans[0];
      var end, after := s.index + s.length, PushMatch(p, value, s, PushText(w, value[from..s.index]));
      NextSpan(p, value, from, w);
      CutPlaced(p, such, value, from, s, w, base);
      SplitPlaced(p, such, value, end, after, base);
    }
  }

  lemma TokenPlaced(p: Processor, such: (string, Token) -> bool, t: Token, w: Work)
    requires Matches(p) && Faithful(p) && TextFits(such) && Fits(p, such)
    requires Placed(such, "", w.tokens) && such(SourceTexts(w.tokens), t)
    ensures Placed(such, "", ProcessToken(p, t, w).tokens)
  {
    PushPlaced(such, w.tokens, t);
    if t.kind == "text" {
      assert t.value[..0] == "" && SourceTexts(w.tokens) + "" == SourceTexts(w.tokens);
      SplitPlaced(p, such, t.value, 0, w, SourceTexts(w.tokens));
    }
  }

  lemma RestPlaced(such: (string, Token) -> bool, before: string, tokens: seq<Token>)
    requires tokens != [] && Placed(such, before, tokens)
    ensures such(before, tokens[0]) && Placed(such, before + SourceText(tokens[0]), tokens[1..])
  {
    assert PlacedAt(such, before, tokens, 0) && before + SourceTexts(tokens[..0]) == before;
    var after, rest := before + SourceText(tokens[0]), tokens[1..];
    forall i | 0 <= i < |rest| ensures PlacedAt(such, after, rest, i) {
      assert PlacedAt(such, before, tokens, i + 1);
      var front := tokens[..i + 1];
      assert front[0] == tokens[0] && front[1..] == rest[..i];
      assert after + SourceTexts(rest[..i]) == before + SourceTexts(front);
    }
  }

  lemma {:induction false} TokensPlaced(p: Processor, such: (string, Token) -> bool, tokens: seq<Token>, w: Work)
    requires Matches(p) && Faithful(p) && TextFits(such) && Fits(p, such)
    requires Placed(such, "", w.tokens) && Placed(such, SourceTexts(w.tokens), tokens)
    ensures Placed(such, "", ProcessTokens(p, tokens, w).tokens)
    decreases |tokens|
  {
    if tokens != [] {
      RestPlaced(such, SourceTexts(w.tokens), tokens);
      TokenPlaced(p, such, tokens[0], w);
      TokenConserves(p, tokens[0], w);
      TokensPlaced(p, such, tokens[1..], ProcessToken(p, tokens[0], w));
    }
  }

  lemma {:induction false} StagesPlaced(ps: seq<Processor>, such: (string, Token) -> bool, w: Work)
    requires AllMatch(ps) && AllFaithful(ps) && TextFits(such) && forall p :: p in ps ==> Fits(p, such)
    requires Placed(such, "", w.tokens)
    ensures Placed(such, "", Stages(ps, w).tokens)
    decreases |ps|
  {
    if ps != [] {
      assert ps[0] in ps;
      TokensPlaced(ps[0], such, w.tokens, w.(tokens := []));
      StagesPlaced(ps[1..], such, Stage(ps[0], w));
    }
  }

  // ---------------------------------------------------------------- mentions

  predicate EndsWith(s: string, end: string) { |end| <= |s| && s[|s| - |end|..] == end }

  /** The mention shows what a lookup of its identifier said, and a name reads @name in its place. */
  ghost predicate ReadsAt(lookup: (nat, string) -> Lookup, before: string, t: Token, m: Metadata) {
    exists n: nat :: MentionReads(lookup(n, IdOf(m.originalText)), before, t, m)
  }

  predicate MentionReads(l: Lookup, before: string, t: Token, m: Metadata) {
    MentionOf(l, t, m) && (l.Found? && l.name != "" ==> EndsWith(before + t.value, "@" + l.name))
  }

  ghost predicate MentionPlaced(w: World, before: string, t: Token) {
    t.kind == "mention" ==>
      && t.metadata.Some?
      && var m := t.metadata.value;
         || (IsRef(NPUB, m.originalText) && ReadsAt(w.people, before, t, m))
         || (IsRef(NPROFILE, m.originalText) && ReadsAt(w.profiles, before, t, m))
  }

  ghost function Mentioned(w: World): (string, Token) -> bool { (before, t) => MentionPlaced(w, before, t) }

  lemma NameReadsAt(base: string, value: string, index: nat, npub: Option<string>, name: string, found: string)
    requires index <= |value| && name != ""
    ensures EndsWith(base + value[..index] + MentionOutcome(Found(npub, name), found, index, value).result, "@" + name)
  {
    var shown := MentionOutcome(Found(npub, name), found, index, value).result;
    var front := if index > 0 && value[index - 1] == '@' then value[..index - 1] else value[..index];
    OneAtInFront(npub, name, found, index, value);
    assert base + value[..index] + shown == base + front + ("@" + name);
  }

  lemma MentionFitsAt(w: World, shape: Shape, lookup: (nat, string) -> Lookup, base: string, n: nat, found: string,
      index: nat, value: string)
    requires index <= |value| && IsRef(shape, found)
    requires (shape == NPUB && lookup == w.people) || (shape == NPROFILE && lookup == w.profiles)
    ensures MentionPlaced(w, base + value[..index],
                          TokenOf(MentionOutcome(lookup(n, IdOf(found)), found, index, value)))
  {
    var l := lookup(n, IdOf(found));
    var t := TokenOf(MentionOutcome(l, found, index, value));
    if !l.NotAKey? {
      if l.Found? && l.name != "" { NameReadsAt(base, value, index, l.npub, l.name, found); }
      assert MentionReads(l, base + value[..index], t, t.metadata.value);
    }
  }

  lemma MentionsFit(w: World, shape: Shape, lookup: (nat, string) -> Lookup)
    requires shape.word != "" && ((shape == NPUB && lookup == w.people) || (shape == NPROFILE && lookup == w.profiles))
    ensures Fits(MentionProcessor(shape, lookup), Mentioned(w))
  {
    var p := MentionProcessor(shape, lookup);
    MentionFinds(shape, lookup);
    forall base: string, n: nat, found: string, index: nat, value: string | index <= |value| && IsRef(shape, found)
      ensures Mentioned(w)(base + value[..index], TokenOf(p.process(n, found, index, value)))
    {
      MentionFitsAt(w, shape, lookup, base, n, found, index, value);
    }
    RefsFit(p, shape, Mentioned(w));
  }

  lemma RefsFit(p: Processor, shape: Shape, such: (string, Token) -> bool)
    requires FindsRefs(p, shape)
    requires forall base: string, n: nat, found: string, index: nat, value: string
      {:trigger base + value[..index], p.process(n, found, index, value)} ::
      index <= |value| && IsRef(shape, found) ==>
        such(base + value[..index], TokenOf(p.process(n, found, index, value)))
    ensures Fits(p, such)
  {
    forall base: string, value: string, from: nat, n: nat ensures FitsAt(p, such, base, value, from, n) {
      var s := p.exec(value, from);
      if s.Some? {
        var found := value[s.value.index..s.value.index + s.value.length];
        RefInPiece(shape, value, s.value.index, s.value.index + s.value.length);
        assert such(base + value[..s.value.index], TokenOf(p.process(n, found, s.value.index, value)));
      }
    }
  }

  /** The processor never makes a mention. */
  ghost predicate MakesNoMention(p: Processor) {
    forall n: nat, found: string, index: nat, value: string ::
      TokenOf(p.process(n, found, index, value)).kind != "mention"
  }

  lemma OthersFit(w: World, p: Processor)
    requires MakesNoMention(p)
    ensures Fits(p, Mentioned(w))
  {
    forall base: string, value: string, from: nat, n: nat ensures FitsAt(p, Mentioned(w), base, value, from, n) {}
  }

  lemma ProcessorsFit(w: World)
    ensures forall p :: p in Processors(w) ==> Fits(p, Mentioned(w))
    ensures TextFits(Mentioned(w))
  {
    assert "url"[0] != "mention"[0] && "emoji"[0] != "mention"[0] && "text"[0] != "mention"[0];
    OthersFit(w, UrlProcessor(w.isLetter));
    OthersFit(w, EmojiProcessor(w.definitions));
    OthersFit(w, LinkProcessor(NOTE));
    OthersFit(w, LinkProcessor(NEVENT));
    OthersFit(w, LinkProcessor(NADDR));
    MentionsFit(w, NPUB, w.people);
    MentionsFit(w, NPROFILE, w.profiles);
  }

  /** Main theorem: in the message as its author wrote it, with a mention put in the place of an identifier,
      the person's name reads @name, whatever stood in front of it. */
  lemma MentionsReadAt(content: string, w: World, i: nat)
    ensures AllMatch(Processors(w))
    ensures var tokens := DisplayTokens(content, Processors(w));
      i < |tokens| ==> MentionPlaced(w, SourceTexts(tokens[..i]), tokens[i])
  {
    ProcessorsMatch(w);
    ProcessorsFit(w);
    var start := [TextToken(Trim(content))];
    assert Placed(Mentioned(w), "", start);
    StagesPlaced(Processors(w), Mentioned(w), Work(start, [], 0));
    var tokens := DisplayTokens(content, Processors(w));
    if i < |tokens| {
      assert PlacedAt(Mentioned(w), "", tokens, i);
      assert "" + SourceTexts(tokens[..i]) == SourceTexts(tokens[..i]);
    }
  }

  // ---------------------------------------------------------------- which messages are shown as tokens

  ghost predicate HasInk(s: string) { exists i :: 0 <= i < |s| && !IsSpace(s[i]) }

  lemma InkWithin(a: string, s: string, b: string)
    requires HasInk(s)
    ensures HasInk(a + s + b)
  {
    var i :| 0 <= i < |s| && !IsSpace(s[i]);
    assert (a + s + b)[|a| + i] == s[i];
  }

  lemma {:induction false} TrimStartInk(s: string)
    ensures if HasInk(s) then TrimStart(s) != "" && !IsSpace(TrimStart(s)[0]) else TrimStart(s) == ""
  {
    if s != "" && IsSpace(s[0]) {
      TrimStartInk(s[1..]);
      if i :| 0 <= i < |s| && !IsSpace(s[i]) { assert s[1..][i - 1] == s[i]; }
      if i :| 0 <= i < |s[1..]| && !IsSpace(s[1..][i]) { assert s[i + 1] == s[1..][i]; }
    }
  }

  lemma {:induction false} TrimEndInk(s: string)
    requires s != "" && !IsSpace(s[0])
    ensures TrimEnd(s) != "" && TrimEnd(s)[0] == s[0]
  {
    if IsSpace(s[|s| - 1]) { TrimEndInk(s[..|s| - 1]); }
  }

  /** Trimming leaves nothing of what is all space, and of anything else something that begins visibly. */
  lemma TrimInk(s: string)
    ensures if HasInk(s) then Trim(s) != "" && !IsSpace(Trim(s)[0]) else Trim(s) == ""
  {
    TrimStartInk(s);
    if HasInk(s) { TrimEndInk(TrimStart(s)); }
  }

  lemma {:induction false} PlainFormConcat(a: seq<Token>, b: seq<Token>)
    ensures PlainForm(a + b) == PlainForm(a) + PlainForm(b)
  {
    if a == [] {
      assert a + b == b;
    } else {
      assert (a + b)[1..] == a[1..] + b;
      PlainFormConcat(a[1..], b);
    }
  }

  lemma PlainFormAt(tokens: seq<Token>, k: nat)
    requires k < |tokens|
    ensures PlainForm(tokens) == PlainForm(tokens[..k]) + InPlain(tokens[k]) + PlainForm(tokens[k + 1..])
  {
    assert tokens == tokens[..k] + tokens[k..] && tokens[k..][1..] == tokens[k + 1..];
    PlainFormConcat(tokens[..k], tokens[k..]);
    assert PlainForm(tokens[k..]) == InPlain(tokens[k]) + PlainForm(tokens[k + 1..]);
  }

  /** The plain form, around any one token: a link is spelled out with its target, the rest is as shown. */
  lemma PlainFormAround(tokens: seq<Token>, k: nat, shown: string)
    requires k < |tokens|
    requires var t := tokens[k];
      if t.kind != "url" || t.metadata.None? then shown == t.value
      else shown == if t.metadata.value.url.Some? then t.metadata.value.url.value else t.value
    ensures PlainForm(tokens) == PlainForm(tokens[..k]) + shown + PlainForm(tokens[k + 1..])
  {
    PlainFormAt(tokens, k);
  }

  /** The first token that stands for anything. */
  lemma {:induction false} FirstWithSource(tokens: seq<Token>) returns (k: nat)
    requires SourceTexts(tokens) != ""
    ensures k < |tokens| && SourceTexts(tokens[..k]) == ""
    ensures SourceText(tokens[k]) != "" && SourceText(tokens[k])[0] == SourceTexts(tokens)[0]
  {
    if SourceText(tokens[0]) != "" {
      k := 0;
    } else {
      var j := FirstWithSource(tokens[1..]);
      k := j + 1;
      assert tokens[..k][0] == tokens[0] && tokens[..k][1..] == tokens[1..][..j];
    }
  }

  lemma IdBegins(shape: Shape, found: string)
    requires shape in SHAPES && IsRef(shape, found)
    ensures IdOf(found) != "" && IdOf(found)[0] == 'n'
  {
    if IdAt(shape, found, 0, |found|) {
      LetterOf(found, 0, shape.word, 0);
      LetterOf(found, 0, shape.word, 2);
      assert found[2] != SCHEME[2];
    } else {
      LetterOf(found, |SCHEME|, shape.word, 0);
    }
  }

  lemma AbridgedBegins(id: string)
    requires id != ""
    ensures Abridged(id) != "" && Abridged(id)[0] == id[0]
  {
    if |id| > 15 { assert Abridged(id)[..8][0] == id[..8][0]; }
  }

  lemma MentionHasInk(t: Token, m: Metadata, l: Lookup, shape: Shape)
    requires shape in SHAPES && IsRef(shape, m.originalText) && MentionReads(l, "", t, m)
    ensures HasInk(t.value)
  {
    if l.Found? && l.name != "" {
      assert "" + t.value == t.value;
      AtIsInk(t.value, "@" + l.name);
    } else {
      IdBegins(shape, m.originalText);
      AbridgedBegins(IdOf(m.originalText));
      FirstIsInk(t.value);
    }
  }

  lemma AtIsInk(s: string, end: string)
    requires EndsWith(s, end) && end != "" && end[0] == '@'
    ensures HasInk(s)
  {
    assert s[|s| - |end|] == end[0];
  }

  lemma FirstIsInk(s: string)
    requires s != "" && !IsSpace(s[0])
    ensures HasInk(s)
  {
  }

  lemma FirstMentionHasInk(w: World, t: Token)
    requires MentionPlaced(w, "", t) && t.kind == "mention"
    ensures HasInk(t.value)
  {
    var m := t.metadata.value;
    if IsRef(NPUB, m.originalText) && ReadsAt(w.people, "", t, m) {
      var n: nat :| MentionReads(w.people(n, IdOf(m.originalText)), "", t, m);
      MentionHasInk(t, m, w.people(n, IdOf(m.originalText)), NPUB);
    } else {
      var n: nat :| MentionReads(w.profiles(n, IdOf(m.originalText)), "", t, m);
      MentionHasInk(t, m, w.profiles(n, IdOf(m.originalText)), NPROFILE);
    }
  }

  predicate EmojiShowsItself(t: Token) { t.kind == "emoji" ==> SourceText(t) == t.value }

  lemma EmojiShown(w: World)
    ensures forall p :: p in Processors(w) ==> Yields(p, EmojiShowsItself)
  {
    assert "url"[0] != "emoji"[0] && "mention"[0] != "emoji"[0] && "text"[0] != "emoji"[0];
    EmojiProcessorIsSound(w.definitions);
    forall value: string, from: nat, n: nat
      ensures YieldsAt(EmojiProcessor(w.definitions), EmojiShowsItself, value, from, n)
    {
      assert YieldsAt(EmojiProcessor(w.definitions), ShowsItsSource, value, from, n);
    }
    NeverEmoji(UrlProcessor(w.isLetter));
    MentionNeverEmoji(NPUB, w.people);
    MentionNeverEmoji(NPROFILE, w.profiles);
    NeverEmoji(LinkProcessor(NOTE));
    NeverEmoji(LinkProcessor(NEVENT));
    NeverEmoji(LinkProcessor(NADDR));
  }

  lemma NeverEmoji(p: Processor)
    requires forall n: nat, found: string, index: nat, value: string {:trigger p.process(n, found, index, value)} ::
      TokenOf(p.process(n, found, index, value)).kind != "emoji"
    ensures Yields(p, EmojiShowsItself)
  {
    forall value: string, from: nat, n: nat ensures YieldsAt(p, EmojiShowsItself, value, from, n) {}
  }

  lemma MentionNeverEmoji(shape: Shape, lookup: (nat, string) -> Lookup)
    requires shape.word != ""
    ensures Yields(MentionProcessor(shape, lookup), EmojiShowsItself)
  {
    var p := MentionProcessor(shape, lookup);
    forall n: nat, found: string, index: nat, value: string
      ensures TokenOf(p.process(n, found, index, value)).kind != "emoji"
    {
      var kind := TokenOf(MentionOutcome(lookup(n, IdOf(found)), found, index, value)).kind;
      assert kind == "mention" || kind == "text";
      assert kind[0] != "emoji"[0];
    }
    NeverEmoji(p);
  }

  /** The first token that stands for anything is seen in the plain form. */
  lemma FirstHasInk(w: World, t: Token)
    requires MentionPlaced(w, "", t) && WellTaken(w, t) && LeadsWhereItSays(w, t) && EmojiShowsItself(t)
    requires SourceText(t) != "" && !IsSpace(SourceText(t)[0])
    ensures HasInk(InPlain(t))
  {
    if t.kind == "mention" {
      FirstMentionHasInk(w, t);
    } else if t.kind == "url" {
      var url := t.metadata.value.url.value;
      assert url == t.metadata.value.originalText || url[0] == "https://njump.me/"[0];
      assert !IsSpace(url[0]);
    } else {
      assert !IsSpace(t.value[0]);
    }
  }

  lemma SomethingToShow(content: string, w: World)
    requires HasInk(content)
    ensures AllMatch(Processors(w)) && HasInk(PlainForm(DisplayTokens(content, Processors(w))))
  {
    ProcessorsMatch(w);
    var ps := Processors(w);
    var tokens := DisplayTokens(content, ps);
    TrimInk(content);
    PipelineConserves(Trim(content), ps);
    var k := FirstWithSource(tokens);
    var t := tokens[k];
    MentionsReadAt(content, w, k);
    NothingElseIsTaken(content, w, t);
    FirstLeads(content, w, t);
    FirstHasInk(w, t);
    PlainFormAt(tokens, k);
    InkWithin(PlainForm(tokens[..k]), InPlain(t), PlainForm(tokens[k + 1..]));
  }

  lemma FirstLeads(content: string, w: World, t: Token)
    requires AllMatch(Processors(w)) && t in DisplayTokens(content, Processors(w))
    ensures LeadsWhereItSays(w, t) && EmojiShowsItself(t)
  {
    ReaderSeesTheMessage(content, w, false, map[]);
    EmojiShown(w);
    assert "text"[0] != "emoji"[0];
    DisplayTokensYield(content, Processors(w), EmojiShowsItself);
    assert EmojiShowsItself(t);
  }

  /** Main theorem: a message goes out as its tokens, links and mentions and all, unless the pipeline threw or
      the message is nothing but space; then, and only then, it goes out as it came. */
  lemma RenderedExactly(content: string, w: World, throws: bool)
    ensures AllMatch(Processors(w))
    ensures Render(content, Processors(w), throws)
         == if throws || !HasInk(content) then Rendered(content, None)
            else Rendered(PlainForm(DisplayTokens(content, Processors(w))),
                          Some(DisplayTokens(content, Processors(w))))
  {
    ProcessorsMatch(w);
    TrimInk(content);
    if HasInk(content) {
      SomethingToShow(content, w);
      TrimInk(PlainForm(DisplayTokens(content, Processors(w))));
    }
  }

  // ---------------------------------------------------------------- every token is named

  predicate Named(t: Token) { t.kind != "" && (t.metadata.None? ==> t.kind == "text") }

  /** No token goes without a kind, and only plain text goes without metadata. */
  lemma EveryTokenIsNamed(content: string, ps: seq<Processor>)
    requires AllMatch(ps)
    ensures All(Processed(content, ps).tokens, Named)
  {
    assert "text"[0] == 't' && "unknown"[0] == 'u';
    forall p | p in ps ensures Yields(p, Named) {
      forall value: string, from: nat, n: nat ensures YieldsAt(p, Named, value, from, n) {}
    }
    StagesYield(ps, Work([TextToken(content)], [], 0), Named);
  }
}
