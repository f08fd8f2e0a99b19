/** The seven processors a live chat message goes through, and what they do to a whole message.

    What they look up is a parameter: the profile behind an identifier, which may differ from call to
    call, and which characters beyond ASCII are letters, digits or marks. */
module BridgeProcessors {
  import opened ContentTokens
  import opened ContentPipeline
  import opened OwncastHtml
  import opened HtmlDecoding
  import opened MessageRoundTrip
  import opened Options
  import opened Patterns
  import opened SourceReader

  // ---------------------------------------------------------------- links

  predicate IsUrlChar(isLetter: char -> bool, c: char) {
    || 'a' <= c <= 'z' || 'A' <= c <= 'Z' || '0' <= c <= '9' || c in "_&./?=#-@%+,:!~*"
    || (c as int >= 0x80 && isLetter(c))
  }

  /** Where the URL that begins at that place ends. */
  function UrlEnd(isLetter: char -> bool, value: string, at: nat): (end: Option<nat>)
    ensures end.Some? ==> at < end.value <= |value|
  {
    var n := if HasWord(value, at, "https://") then 8 else if HasWord(value, at, "http://") then 7 else 0;
    if n == 0 then None
    else
      var end := RunEnd(c => IsUrlChar(isLetter, c), value, at + n);
      if end > at + n then Some(end) else None
  }

  function UrlEnds(isLetter: char -> bool): (string, nat) -> Option<nat> {
    (value: string, at: nat) => UrlEnd(isLetter, value, at)
  }

  function FindUrl(isLetter: char -> bool, value: string, from: nat): (s: Option<Span>)
    ensures s.Some? ==> from <= s.value.index && 0 < s.value.length && s.value.index + s.value.length <= |value|
  {
    var at := First(UrlEnds(isLetter), value, from);
    if at.None? then None else Some(Span(at.value, UrlEnd(isLetter, value, at.value).value - at.value))
  }

  lemma FoundUrl(isLetter: char -> bool, value: string, from: nat, s: Option<Span>)
    requires s == FindUrl(isLetter, value, from)
    ensures s.Some? ==> UrlEnd(isLetter, value, s.value.index) == Some(s.value.index + s.value.length)
  {
  }

  lemma NoUrlBefore(isLetter: char -> bool, value: string, from: nat, s: Option<Span>)
    requires s == FindUrl(isLetter, value, from)
    ensures forall k :: from <= k < (if s.Some? then s.value.index else |value|) ==> UrlEnds(isLetter)(value, k).None?
  {
  }

  function UrlProcessor(isLetter: char -> bool): Processor {
    Processor((value: string, from: nat) => FindUrl(isLetter, value, from),
              (n: nat, found: string, index: nat, value: string) =>
                Outcome(found, Some(Metadata("url", found, Some(found), None, None))))
  }

  // ---------------------------------------------------------------- Nostr identifiers

  /** (nostr:)?(<word>[a-z0-9]{least,most}) */
  datatype Shape = Shape(word: string, least: nat, most: Option<nat>)

  const NPUB := Shape("npub1", 58, Some(58))
  const NPROFILE := Shape("nprofile1", 1, None)
  const NOTE := Shape("note1", 58, Some(59))
  const NEVENT := Shape("nevent1", 1, None)
  const NADDR := Shape("naddr1", 1, None)

  const SHAPES: seq<Shape> := [NPUB, NPROFILE, NOTE, NEVENT, NADDR]

  const SCHEME := "nostr:"

  predicate IsBech32(c: char) { 'a' <= c <= 'z' || '0' <= c <= '9' }

  /** The identifier without its scheme, as long as it can be. */
  function IdEnd(shape: Shape, value: string, at: nat): (end: Option<nat>)
    ensures end.Some? ==> IdAt(shape, value, at, end.value)
  {
    var body := at + |shape.word|;
    if !HasWord(value, at, shape.word) then None
    else
      var end := RunEnd(IsBech32, value, body);
      if end < body + shape.least || (shape.most.Some? && shape.most.value < shape.least) then None
      else if shape.most.Some? && body + shape.most.value < end then Some(body + shape.most.value)
      else Some(end)
  }

  ghost predicate IdAt(shape: Shape, value: string, at: nat, end: nat) {
    var body := at + |shape.word|;
    && HasWord(value, at, shape.word) && body + shape.least <= end <= |value|
    && (shape.most.Some? ==> end <= body + shape.most.value)
    && forall i :: body <= i < end ==> IsBech32(value[i])
  }

  /** The scheme is taken along if the match can do with it. */
  function RefEnd(shape: Shape, value: string, at: nat): (end: Option<nat>)
    ensures end.Some? ==> RefAt(shape, value, at, end.value)
  {
    if HasWord(value, at, SCHEME) && IdEnd(shape, value, at + |SCHEME|).Some? then IdEnd(shape, value, at + |SCHEME|)
    else IdEnd(shape, value, at)
  }

  ghost predicate RefAt(shape: Shape, value: string, at: nat, end: nat) {
    IdAt(shape, value, at, end) || (HasWord(value, at, SCHEME) && IdAt(shape, value, at + |SCHEME|, end))
  }

  function FindRef(shape: Shape, value: string, from: nat): (s: Option<Span>)
    requires shape.word != ""
    ensures s.Some? ==>
      from <= s.value.index && 0 < s.value.length && RefAt(shape, value, s.value.index, s.value.index + s.value.length)
    decreases |value| - from
  {
    if from >= |value| then None
    else if RefEnd(shape, value, from).Some? then Some(Span(from, RefEnd(shape, value, from).value - from))
    else FindRef(shape, value, from + 1)
  }

  lemma IdFound(shape: Shape, value: string, at: nat, end: nat)
    requires IdAt(shape, value, at, end)
    ensures IdEnd(shape, value, at).Some? && end <= IdEnd(shape, value, at).value
  {
    RunReaches(IsBech32, value, at + |shape.word|, end);
  }

  /** No identifier is overlooked between lastIndex and the match, or to the end without one. */
  lemma {:induction false} FindsLeftmostRef(shape: Shape, value: string, from: nat, at: nat, end: nat)
    requires shape.word != "" && from <= at && RefAt(shape, value, at, end)
    ensures FindRef(shape, value, from).Some? && FindRef(shape, value, from).value.index <= at
    decreases |value| - from
  {
    if from == at {
      if IdAt(shape, value, at, end) { IdFound(shape, value, at, end); }
      else { IdFound(shape, value, at + |SCHEME|, end); }
    } else if RefEnd(shape, value, from).None? {
      FindsLeftmostRef(shape, value, from + 1, at, end);
    }
  }

  /** The matched text without its scheme. */
  function IdOf(found: string): string { if SCHEME <= found then found[|SCHEME|..] else found }

  /** The beginning and the end of it, in 15 characters at most. */
  function Abridged(id: string): (shown: string)
    ensures |shown| <= 15 && (|id| <= 15 ==> shown == id)
    ensures |id| > 15 ==> |shown| == 15 && shown[..8] == id[..8] && shown[11..] == id[|id| - 4..]
  {
    if |id| <= 15 then id else id[..8] + "..." + id[|id| - 4..]
  }

  /** Notes, events and addresses become links. */
  function LinkOutcome(found: string): Outcome {
    Outcome(Abridged(IdOf(found)), Some(Metadata("url", found, Some("https://njump.me/" + IdOf(found)), None, None)))
  }

  /** What decoding an identifier and asking for its profile come to. */
  datatype Lookup = NotAKey | Found(npub: Option<string>, name: string) | NotFound(npub: Option<string>)

  /** People become mentions; the name gets an @ unless the text already has one in front. */
  function MentionOutcome(lookup: Lookup, found: string, index: nat, value: string): Outcome {
    match lookup
    case NotAKey => Outcome(found, None)
    case Found(npub, name) =>
      var hasAt := 0 < index <= |value| && value[index - 1] == '@';
      var shown := if name == "" then Abridged(IdOf(found)) else if hasAt then name else "@" + name;
      Outcome(shown, Some(Metadata("mention", found, None, npub, None)))
    case NotFound(npub) => Outcome(Abridged(IdOf(found)), Some(Metadata("mention", found, None, npub, None)))
  }

  /** Read on from the text in front of it, the name has exactly one @. */
  lemma OneAtInFront(npub: Option<string>, name: string, found: string, index: nat, value: string)
    requires index <= |value| && name != ""
    ensures var shown := MentionOutcome(Found(npub, name), found, index, value).result;
      value[..index] + shown
      == (if index > 0 && value[index - 1] == '@' then value[..index - 1] else value[..index]) + "@" + name
  {
    if index > 0 && value[index - 1] == '@' { assert value[..index] == value[..index - 1] + "@"; }
  }

  function LinkProcessor(shape: Shape): Processor
    requires shape.word != ""
  {
    Processor((value: string, from: nat) => FindRef(shape, value, from),
              (n: nat, found: string, index: nat, value: string) => LinkOutcome(found))
  }

  function MentionProcessor(shape: Shape, lookup: (nat, string) -> Lookup): Processor
    requires shape.word != ""
  {
    Processor((value: string, from: nat) => FindRef(shape, value, from),
              (n: nat, found: string, index: nat, value: string) =>
                MentionOutcome(lookup(n, IdOf(found)), found, index, value))
  }

  // ---------------------------------------------------------------- all of them

  /** What the processors look up. */
  datatype World = World(
    definitions: map<string, string>,
    isLetter: char -> bool,
    people: (nat, string) -> Lookup,
    profiles: (nat, string) -> Lookup)

  /** The two that show a match as it is. */
  function Verbatim(w: World): seq<Processor> { [UrlProcessor(w.isLetter), EmojiProcessor(w.definitions)] }

  /** Those that replace identifiers. */
  function Replacing(w: World): seq<Processor> {
    [MentionProcessor(NPUB, w.people), MentionProcessor(NPROFILE, w.profiles),
     LinkProcessor(NOTE), LinkProcessor(NEVENT), LinkProcessor(NADDR)]
  }

  /** In order of priority, highest first. */
  function Processors(w: World): seq<Processor> { Verbatim(w) + Replacing(w) }

  ghost predicate Sound(p: Processor) { Matches(p) && Faithful(p) && Yields(p, EmojiEndsWell) }

  lemma UrlIsSound(isLetter: char -> bool)
    ensures Sound(UrlProcessor(isLetter)) && Yields(UrlProcessor(isLetter), ShowsItsSource)
  {
    var p := UrlProcessor(isLetter);
    assert "url"[0] != "emoji"[0];
    forall value: string, from: nat, n: nat ensures YieldsAt(p, EmojiEndsWell, value, from, n) {}
    forall value: string, from: nat, n: nat ensures YieldsAt(p, ShowsItsSource, value, from, n) {}
  }

  lemma MentionIsFaithful(lookup: Lookup, found: string, index: nat, value: string)
    ensures EmojiEndsWell(TokenOf(MentionOutcome(lookup, found, index, value)))
    ensures var o := MentionOutcome(lookup, found, index, value);
      if o.metadata.None? then o.result == found
      else o.metadata.value.originalText == found && o.metadata.value.kind != "text"
  {
    assert "mention"[0] != "text"[0];
    var t := TokenOf(MentionOutcome(lookup, found, index, value));
    assert t.kind == if lookup.NotAKey? then "text" else "mention";
    assert t.kind[0] != "emoji"[0];
  }

  lemma MentionIsSound(shape: Shape, lookup: (nat, string) -> Lookup)
    requires shape.word != ""
    ensures Sound(MentionProcessor(shape, lookup))
  {
    var p := MentionProcessor(shape, lookup);
    forall n: nat, found: string, index: nat, value: string
      ensures var o := p.process(n, found, index, value);
        if o.metadata.None? then o.result == found
        else o.metadata.value.originalText == found && o.metadata.value.kind != "text"
    {
      MentionIsFaithful(lookup(n, IdOf(found)), found, index, value);
    }
    forall value: string, from: nat, n: nat ensures YieldsAt(p, EmojiEndsWell, value, from, n) {
      var s := FindRef(shape, value, from);
      if s.Some? {
        var found := value[s.value.index..s.value.index + s.value.length];
        MentionIsFaithful(lookup(n, IdOf(found)), found, s.value.index, value);
      }
    }
  }

  lemma LinkIsSound(shape: Shape)
    requires shape.word != ""
    ensures Sound(LinkProcessor(shape))
  {
    var p := LinkProcessor(shape);
    assert "url"[0] != "emoji"[0];
    forall value: string, from: nat, n: nat ensures YieldsAt(p, EmojiEndsWell, value, from, n) {}
  }

  /** Every processor the bridge runs meets everything the pipeline and the printer ask of one. */
  lemma ProcessorsAreSound(w: World)
    ensures forall p :: p in Processors(w) ==> Sound(p)
    ensures forall p :: p in Verbatim(w) ==> Yields(p, ShowsItsSource)
  {
    UrlIsSound(w.isLetter);
    EmojiProcessorIsSound(w.definitions);
    MentionIsSound(NPUB, w.people);
    MentionIsSound(NPROFILE, w.profiles);
    LinkIsSound(NOTE);
    LinkIsSound(NEVENT);
    LinkIsSound(NADDR);
  }

  lemma ProcessorsMatch(w: World)
    ensures AllMatch(Processors(w)) && AllFaithful(Processors(w))
    ensures AllMatch(Verbatim(w)) && AllFaithful(Verbatim(w)) && AllMatch(Replacing(w))
  {
    ProcessorsAreSound(w);
    assert forall p :: p in Verbatim(w) || p in Replacing(w) ==> p in Processors(w);
  }

  /** For the processors as they are, without hypotheses: reading back the HTML the bridge sends for any
      message gives the text it shows, references decoded and ends trimmed; and the tokens of the
      message stand for the whole of it. */
  lemma {:induction false} BridgedMessageIsRead(content: string, w: World, throws: bool, emoji: map<string, string>)
    ensures AllMatch(Processors(w))
    ensures var r := Render(content, Processors(w), throws);
      HtmlToText(SentHtml(r, emoji)) == Finish(ReplaceAll(References(), Shown(r)))
    ensures SourceTexts(DisplayTokens(content, Processors(w))) == Trim(content)
  {
    ProcessorsAreSound(w);
    ProcessorsMatch(w);
    ListenerReadsTheDisplayText(content, Processors(w), throws, emoji);
    PipelineConserves(Trim(content), Processors(w));
  }

  // ---------------------------------------------------------------- what a reader of the source chat sees

  /** What a reader is to see of a message: its tokens, or its raw text where it goes out as such. */
  function InView(r: Rendered, emoji: map<string, string>): seq<Glyph> {
    if r.tokens.Some? && r.tokens.value != [] then AllShown(r.tokens.value, emoji) else Letters(r.text, None)
  }

  /** A link leads to the URL it stands for or to the njump.me page of the identifier it stands for, and an
      emoji to the image its event defines for it. */
  predicate LeadsWhereItSays(w: World, t: Token) {
    && (t.kind == "url" ==>
        && t.metadata.Some?
        && var m := t.metadata.value;
           || (t.value == m.originalText && m.url == Some(m.originalText))
           || (t.value == Abridged(IdOf(m.originalText)) && m.url == Some("https://njump.me/" + IdOf(m.originalText))))
    && (t.kind == "emoji" ==>
        && t.metadata.Some? && |t.value| > 2
        && var code := t.value[1..|t.value| - 1];
           code in w.definitions && t.metadata.value.imageUrl == Some(w.definitions[code]))
  }

  function Leading(w: World): Token -> bool { t => LeadsWhereItSays(w, t) }

  lemma UrlLeads(w: World)
    ensures Yields(UrlProcessor(w.isLetter), Leading(w))
  {
    assert "url"[0] != "emoji"[0];
    forall value: string, from: nat, n: nat
      ensures YieldsAt(UrlProcessor(w.isLetter), Leading(w), value, from, n)
    {
    }
  }

  lemma LinkLeads(w: World, shape: Shape)
    requires shape.word != ""
    ensures Yields(LinkProcessor(shape), Leading(w))
  {
    assert "url"[0] != "emoji"[0];
    forall value: string, from: nat, n: nat
      ensures YieldsAt(LinkProcessor(shape), Leading(w), value, from, n)
    {
    }
  }

  lemma MentionLeads(w: World, lookup: Lookup, found: string, index: nat, value: string)
    ensures LeadsWhereItSays(w, TokenOf(MentionOutcome(lookup, found, index, value)))
  {
    var t := TokenOf(MentionOutcome(lookup, found, index, value));
    assert t.kind == if lookup.NotAKey? then "text" else "mention";
    assert t.kind[0] != "emoji"[0] && t.kind[0] != "url"[0];
  }

  lemma MentionsLead(w: World, shape: Shape, lookup: (nat, string) -> Lookup)
    requires shape.word != ""
    ensures Yields(MentionProcessor(shape, lookup), Leading(w))
  {
    var p := MentionProcessor(shape, lookup);
    forall value: string, from: nat, n: nat ensures YieldsAt(p, Leading(w), value, from, n) {
      var s := FindRef(shape, value, from);
      if s.Some? {
        var found := value[s.value.index..s.value.index + s.value.length];
        MentionLeads(w, lookup(n, IdOf(found)), found, s.value.index, value);
      }
    }
  }

  lemma EmojiLeads(w: World)
    ensures Yields(EmojiProcessor(w.definitions), Leading(w))
  {
    assert "emoji"[0] != "url"[0] && "text"[0] != "url"[0] && "text"[0] != "emoji"[0];
    forall value: string, from: nat, n: nat
      ensures YieldsAt(EmojiProcessor(w.definitions), Leading(w), value, from, n)
    {
    }
  }

  lemma TextLeads(w: World)
    ensures GoodText(Leading(w))
  {
    assert "text"[0] != "url"[0] && "text"[0] != "emoji"[0];
  }

  lemma ProcessorsLead(w: World)
    ensures forall p :: p in Processors(w) ==> Yields(p, Leading(w))
  {
    UrlLeads(w);
    EmojiLeads(w);
    MentionsLead(w, NPUB, w.people);
    MentionsLead(w, NPROFILE, w.profiles);
    LinkLeads(w, NOTE);
    LinkLeads(w, NEVENT);
    LinkLeads(w, NADDR);
  }

  /** What the source chat's readers see of any message the bridge sends: its tokens as they are to be
      shown, each link leading where it says, or the bare text. */
  lemma {:induction false} ReaderSeesTheMessage(content: string, w: World, throws: bool, emoji: map<string, string>)
    ensures AllMatch(Processors(w))
    ensures var r := Render(content, Processors(w), throws); View(SentHtml(r, emoji)) == InView(r, emoji)
    ensures forall t :: t in DisplayTokens(content, Processors(w)) ==> LeadsWhereItSays(w, t)
  {
    ProcessorsMatch(w);
    ProcessorsLead(w);
    TextLeads(w);
    var good := Leading(w);
    DisplayTokensYield(content, Processors(w), good);
    forall t | t in DisplayTokens(content, Processors(w)) ensures LeadsWhereItSays(w, t) { assert good(t); }
    var r := Render(content, Processors(w), throws);
    if r.tokens.Some? && r.tokens.value != [] {
      ReaderSeesTheTokens(r.tokens.value, emoji);
    } else {
      ReaderSeesTheText(r.text);
    }
  }

  // ---------------------------------------------------------------- messages without identifiers

  /** No identifier of the shape stands anywhere in the text. */
  ghost predicate FreeOf(shape: Shape, value: string) { forall at: nat, end: nat :: !RefAt(shape, value, at, end) }

  /** No Nostr identifier of any kind does. */
  ghost predicate Free(value: string) { forall shape :: shape in SHAPES ==> FreeOf(shape, value) }

  lemma PieceHasWord(value: string, i: nat, j: nat, at: nat, word: string)
    requires i <= j <= |value| && HasWord(value[i..j], at, word)
    ensures HasWord(value, i + at, word)
  {
    var piece := value[i..j];
    forall k | 0 <= k < |word| ensures value[i + at..i + at + |word|][k] == word[k] {
      assert piece[at..at + |word|][k] == piece[at + k] == value[i + at + k];
    }
  }

  lemma PieceHasId(shape: Shape, value: string, i: nat, j: nat, at: nat, end: nat)
    requires i <= j <= |value| && IdAt(shape, value[i..j], at, end)
    ensures IdAt(shape, value, i + at, i + end)
  {
    PieceHasWord(value, i, j, at, shape.word);
    forall k | i + at + |shape.word| <= k < i + end ensures IsBech32(value[k]) {
      assert value[i..j][k - i] == value[k];
    }
  }

  lemma PieceHasRef(shape: Shape, value: string, i: nat, j: nat, at: nat, end: nat)
    requires i <= j <= |value| && RefAt(shape, value[i..j], at, end)
    ensures RefAt(shape, value, i + at, i + end)
  {
    if IdAt(shape, value[i..j], at, end) {
      PieceHasId(shape, value, i, j, at, end);
    } else {
      PieceHasWord(value, i, j, at, SCHEME);
      PieceHasId(shape, value, i, j, at + |SCHEME|, end);
    }
  }

  lemma PieceIsFreeOf(shape: Shape, value: string, i: nat, j: nat)
    requires i <= j <= |value| && FreeOf(shape, value)
    ensures FreeOf(shape, value[i..j])
  {
    forall at: nat, end: nat | RefAt(shape, value[i..j], at, end) ensures false {
      PieceHasRef(shape, value, i, j, at, end);
    }
  }

  lemma FreeIsInherited()
    ensures Inherited(v => Free(v))
  {
    forall value: string, i: nat, j: nat | i <= j <= |value| && Free(value) ensures Free(value[i..j]) {
      forall shape | shape in SHAPES ensures FreeOf(shape, value[i..j]) { PieceIsFreeOf(shape, value, i, j); }
    }
  }

  ghost predicate TextIsFree(t: Token) { t.kind == "text" ==> Free(t.value) }

  ghost predicate AllFree(tokens: seq<Token>) { forall t :: t in tokens ==> TextIsFree(t) }

  lemma StagesFree(ps: seq<Processor>, w: Work)
    requires AllMatch(ps) && AllFaithful(ps) && AllFree(w.tokens)
    ensures AllFree(Stages(ps, w).tokens)
  {
    FreeIsInherited();
    var clean := v => Free(v);
    forall t | t in w.tokens ensures TextIs(clean, t) { assert TextIsFree(t); }
    StagesKeep(ps, clean, w);
    forall t | t in Stages(ps, w).tokens ensures TextIsFree(t) { assert TextIs(clean, t); }
  }

  /** The processor finds no identifier but those of its shape. */
  ghost predicate Seeks(p: Processor, shape: Shape) {
    shape.word != "" && forall value: string, from: nat :: p.exec(value, from) == FindRef(shape, value, from)
  }

  lemma FindsNoneIfFree(p: Processor, shape: Shape, value: string)
    requires Matches(p) && Seeks(p, shape) && shape in SHAPES && Free(value)
    ensures AllSpans(p, value, 0) == []
  {
    assert p.exec(value, 0) == FindRef(shape, value, 0);
  }

  lemma PassesBy(p: Processor, shape: Shape, t: Token, w: Work)
    requires Matches(p) && Seeks(p, shape) && shape in SHAPES && TextIsFree(t)
    ensures ProcessToken(p, t, w) == Push(w, t)
  {
    if t.kind == "text" { FindsNoneIfFree(p, shape, t.value); }
  }

  lemma {:induction false} IdlesOver(p: Processor, shape: Shape, tokens: seq<Token>, w: Work)
    requires Matches(p) && Seeks(p, shape) && shape in SHAPES && AllFree(tokens)
    ensures ProcessTokens(p, tokens, w) == w.(tokens := w.tokens + tokens)
    decreases |tokens|
  {
    if tokens == [] {
      assert w.tokens + tokens == w.tokens;
    } else {
      assert tokens[0] in tokens;
      PassesBy(p, shape, tokens[0], w);
      IdlesOver(p, shape, tokens[1..], Push(w, tokens[0]));
      assert w.tokens + [tokens[0]] + tokens[1..] == w.tokens + tokens;
    }
  }

  lemma Idles(p: Processor, shape: Shape, ps: seq<Processor>, w: Work)
    requires ps != [] && ps[0] == p && AllMatch(ps) && Seeks(p, shape) && shape in SHAPES && AllFree(w.tokens)
    ensures AllMatch(ps[1..]) && Stages(ps, w) == Stages(ps[1..], w)
  {
    assert ps[0] in ps;
    IdlesOver(p, shape, w.tokens, w.(tokens := []));
    assert [] + w.tokens == w.tokens;
  }

  lemma {:induction false} StagesConcat(a: seq<Processor>, b: seq<Processor>, w: Work)
    requires AllMatch(a) && AllMatch(b)
    ensures AllMatch(a + b) && Stages(a + b, w) == Stages(b, Stages(a, w))
    decreases |a|
  {
    if a == [] {
      assert a + b == b;
    } else {
      assert a[0] in a;
      assert (a + b)[1..] == a[1..] + b && (a + b)[0] == a[0];
      StagesConcat(a[1..], b, Stage(a[0], w));
    }
  }

  lemma ReplacingIdles(world: World, w: Work)
    requires AllMatch(Replacing(world)) && AllFree(w.tokens)
    ensures Stages(Replacing(world), w) == w
  {
    var ps := Replacing(world);
    Idles(ps[0], NPUB, ps, w);
    Idles(ps[1], NPROFILE, ps[1..], w);
    Idles(ps[2], NOTE, ps[1..][1..], w);
    Idles(ps[3], NEVENT, ps[1..][1..][1..], w);
    Idles(ps[4], NADDR, ps[1..][1..][1..][1..], w);
  }

  lemma OnlyVerbatim(content: string, w: World)
    requires Free(Trim(content))
    ensures AllMatch(Processors(w)) && AllMatch(Verbatim(w))
    ensures DisplayTokens(content, Processors(w)) == DisplayTokens(content, Verbatim(w))
  {
    ProcessorsMatch(w);
    var start := Work([TextToken(Trim(content))], [], 0);
    StagesConcat(Verbatim(w), Replacing(w), start);
    StagesFree(Verbatim(w), start);
    ReplacingIdles(w, Stages(Verbatim(w), start));
  }

  /** Main theorem, for the processors as they are: a message that mentions no Nostr identifier crosses
      over and back unchanged, whatever its links and emoji and on every path it can take, if and only
      if it is trimmed and spells out no reference. */
  lemma {:induction false} PlainMessageSurvives(content: string, w: World, throws: bool, emoji: map<string, string>)
    requires Free(Trim(content))
    ensures AllMatch(Processors(w))
    ensures HtmlToText(SentHtml(Render(content, Processors(w), throws), emoji)) == Success(content)
       <==> Trim(content) == content && !SpellsReference(content)
  {
    OnlyVerbatim(content, w);
    ProcessorsMatch(w);
    ProcessorsAreSound(w);
    assert forall p :: p in Verbatim(w) ==> p in Processors(w);
    VerbatimMessageSurvives(content, Verbatim(w), throws, emoji);
  }
}
