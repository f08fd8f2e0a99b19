/** What the seven processors leave in a message's text: nothing they should have taken. And what they
    take: only what they should have. */
module PipelineCompleteness {
  import opened ContentTokens
  import opened ContentPipeline
  import opened OwncastHtml
  import opened MessageRoundTrip
  import opened BridgeProcessors
  import opened Options
  import opened Patterns

  // ---------------------------------------------------------------- nothing is left

  /** What clears a text there: a gap without anything to find, and a match that is answered or clean. */
  lemma GapClears(p: Processor, clean: string -> bool, value: string, from: nat, n: nat, s: Option<Span>)
    requires from <= |value| && p.exec(value, from) == s
    requires s.None? ==> clean(value[from..|value|])
    requires s.Some? ==> from <= s.value.index && s.value.index + s.value.length <= |value|
    requires s.Some? ==> clean(value[from..s.value.index])
    requires s.Some? ==>
      var piece := value[s.value.index..s.value.index + s.value.length];
      p.process(n, piece, s.value.index, value).metadata.Some? || clean(piece)
    ensures ClearsAt(p, clean, value, from, n)
  {
    assert value[from..] == value[from..|value|];
  }

  /** A web link stands there: its scheme, and a character of a link behind it. */
  ghost predicate UrlAt(isLetter: char -> bool, value: string, at: nat, scheme: string) {
    HasWord(value, at, scheme) && at + |scheme| < |value| && IsUrlChar(isLetter, value[at + |scheme|])
  }

  ghost predicate UrlFree(isLetter: char -> bool, value: string) {
    forall at: nat :: !UrlAt(isLetter, value, at, "https://") && !UrlAt(isLetter, value, at, "http://")
  }

  predicate Defined(definitions: map<string, string>, found: string) {
    |found| >= 2 && found[1..|found| - 1] in definitions && definitions[found[1..|found| - 1]] != ""
  }

  ghost predicate EmojiAt(definitions: map<string, string>, value: string, s: Span) {
    ShortcodeAt(value, s) && Defined(definitions, value[s.index..s.index + s.length])
  }

  ghost predicate EmojiFree(definitions: map<string, string>, value: string) {
    forall s :: !EmojiAt(definitions, value, s)
  }

  lemma PieceIsUrlFree(isLetter: char -> bool, value: string, i: nat, j: nat)
    requires i <= j <= |value| && UrlFree(isLetter, value)
    ensures UrlFree(isLetter, value[i..j])
  {
    forall at: nat
      ensures !UrlAt(isLetter, value[i..j], at, "https://") && !UrlAt(isLetter, value[i..j], at, "http://")
    {
      PieceHasUrl(isLetter, value, i, j, at, "https://");
      PieceHasUrl(isLetter, value, i, j, at, "http://");
    }
  }

  lemma PieceHasUrl(isLetter: char -> bool, value: string, i: nat, j: nat, at: nat, scheme: string)
    requires i <= j <= |value|
    ensures UrlAt(isLetter, value[i..j], at, scheme) ==> UrlAt(isLetter, value, i + at, scheme)
  {
    if UrlAt(isLetter, value[i..j], at, scheme) {
      PieceHasWord(value, i, j, at, scheme);
      assert value[i..j][at + |scheme|] == value[i + at + |scheme|];
    }
  }

  lemma UrlEndExactly(isLetter: char -> bool, value: string, at: nat)
    ensures UrlEnd(isLetter, value, at).Some?
       <==> UrlAt(isLetter, value, at, "https://") || UrlAt(isLetter, value, at, "http://")
  {
    OneScheme(value, at);
    if UrlAt(isLetter, value, at, "https://") {
      RunReaches(c => IsUrlChar(isLetter, c), value, at + 8, at + 9);
    } else if UrlAt(isLetter, value, at, "http://") {
      RunReaches(c => IsUrlChar(isLetter, c), value, at + 7, at + 8);
    }
  }

  lemma OneScheme(value: string, at: nat)
    ensures !(HasWord(value, at, "https://") && HasWord(value, at, "http://"))
  {
    if HasWord(value, at, "https://") { LetterOf(value, at, "https://", 4); }
    if HasWord(value, at, "http://") { LetterOf(value, at, "http://", 4); }
  }

  lemma LetterOf(value: string, at: nat, word: string, k: nat)
    requires HasWord(value, at, word) && k < |word|
    ensures value[at + k] == word[k]
  {
    assert value[at..at + |word|][k] == value[at + k];
  }

  ghost predicate NoUrlEnds(isLetter: char -> bool, value: string, from: nat, to: nat) {
    forall at: nat :: from <= at < to ==> UrlEnd(isLetter, value, at).None?
  }

  /** No link is overlooked between lastIndex and the match, or to the end without one. */
  lemma NoneBeforeTheFirst(isLetter: char -> bool, value: string, from: nat, to: nat)
    requires to <= |value|
    requires FindUrl(isLetter, value, from).Some? ==> to <= FindUrl(isLetter, value, from).value.index
    ensures NoUrlEnds(isLetter, value, from, to)
  {
    NoUrlBefore(isLetter, value, from, FindUrl(isLetter, value, from));
    forall at: nat | from <= at < to ensures UrlEnd(isLetter, value, at).None? {
      assert UrlEnds(isLetter)(value, at).None?;
    }
  }

  lemma GapHasNoUrl(isLetter: char -> bool, value: string, from: nat, to: nat)
    requires from <= to <= |value| && NoUrlEnds(isLetter, value, from, to)
    ensures UrlFree(isLetter, value[from..to])
  {
    forall at: nat
      ensures !UrlAt(isLetter, value[from..to], at, "https://") && !UrlAt(isLetter, value[from..to], at, "http://")
    {
      UrlEndExactly(isLetter, value, from + at);
      NoUrlInGap(isLetter, value, from, to, at, "https://");
      NoUrlInGap(isLetter, value, from, to, at, "http://");
    }
  }

  lemma NoUrlInGap(isLetter: char -> bool, value: string, from: nat, to: nat, at: nat, scheme: string)
    requires from <= to <= |value| && NoUrlEnds(isLetter, value, from, to)
    requires UrlAt(isLetter, value, from + at, scheme) ==> UrlEnd(isLetter, value, from + at).Some?
    ensures !UrlAt(isLetter, value[from..to], at, scheme)
  {
    PieceHasUrl(isLetter, value, from, to, at, scheme);
  }

  lemma UrlClears(isLetter: char -> bool)
    ensures Clears(UrlProcessor(isLetter), v => UrlFree(isLetter, v))
    ensures Inherited(v => UrlFree(isLetter, v))
  {
    var p, clean := UrlProcessor(isLetter), v => UrlFree(isLetter, v);
    forall value: string, from: nat, n: nat ensures ClearsAt(p, clean, value, from, n) {
      if from <= |value| {
        var s := FindUrl(isLetter, value, from);
        var to := if s.None? then |value| else s.value.index;
        NoneBeforeTheFirst(isLetter, value, from, to);
        GapHasNoUrl(isLetter, value, from, to);
        GapClears(p, clean, value, from, n, s);
      }
    }
    forall value: string, i: nat, j: nat | i <= j <= |value| && UrlFree(isLetter, value)
      ensures UrlFree(isLetter, value[i..j])
    {
      PieceIsUrlFree(isLetter, value, i, j);
    }
  }

  /** The processor's matches are identifiers of the shape. */
  ghost predicate FindsRefs(p: Processor, shape: Shape) {
    forall value: string, from: nat :: p.exec(value, from).Some? ==>
      var s := p.exec(value, from).value; from <= s.index && RefAt(shape, value, s.index, s.index + s.length)
  }

  /** It overlooks none. */
  ghost predicate FindsAllRefs(p: Processor, shape: Shape) {
    forall value: string, from: nat, at: nat, end: nat {:trigger p.exec(value, from), RefAt(shape, value, at, end)} ::
      from <= at && RefAt(shape, value, at, end) ==> p.exec(value, from).Some? && p.exec(value, from).value.index <= at
  }

  /** It never leaves one as it was. */
  ghost predicate TakesAll(p: Processor) {
    forall n: nat, found: string, index: nat, value: string :: p.process(n, found, index, value).metadata.Some?
  }

  lemma LinkFinds(shape: Shape)
    requires shape.word != ""
    ensures FindsRefs(LinkProcessor(shape), shape) && FindsAllRefs(LinkProcessor(shape), shape)
  {
    forall value: string, from: nat, at: nat, end: nat | from <= at && RefAt(shape, value, at, end)
      ensures FindRef(shape, value, from).Some? && FindRef(shape, value, from).value.index <= at
    {
      FindsLeftmostRef(shape, value, from, at, end);
    }
  }

  lemma MentionFinds(shape: Shape, lookup: (nat, string) -> Lookup)
    requires shape.word != ""
    ensures FindsRefs(MentionProcessor(shape, lookup), shape) && FindsAllRefs(MentionProcessor(shape, lookup), shape)
  {
    forall value: string, from: nat, at: nat, end: nat | from <= at && RefAt(shape, value, at, end)
      ensures FindRef(shape, value, from).Some? && FindRef(shape, value, from).value.index <= at
    {
      FindsLeftmostRef(shape, value, from, at, end);
    }
  }

  lemma GapIsFreeOf(p: Processor, shape: Shape, value: string, from: nat, to: nat)
    requires shape.word != "" && FindsAllRefs(p, shape) && from <= to <= |value|
    requires p.exec(value, from).Some? ==> to <= p.exec(value, from).value.index
    ensures FreeOf(shape, value[from..to])
  {
    forall at: nat, end: nat | RefAt(shape, value[from..to], at, end) ensures false {
      PieceHasRef(shape, value, from, to, at, end);
    }
  }

  lemma RefsClear(p: Processor, shape: Shape)
    requires shape.word != "" && FindsRefs(p, shape) && FindsAllRefs(p, shape) && TakesAll(p)
    ensures Clears(p, v => FreeOf(shape, v))
  {
    var clean := v => FreeOf(shape, v);
    forall value: string, from: nat, n: nat ensures ClearsAt(p, clean, value, from, n) {
      if from <= |value| {
        var s := p.exec(value, from);
        GapIsFreeOf(p, shape, value, from, if s.None? then |value| else s.value.index);
        GapClears(p, clean, value, from, n, s);
      }
    }
  }

  /** Every identifier of that kind is a key. */
  ghost predicate AllKeys(lookup: (nat, string) -> Lookup) { forall n: nat, id: string :: !lookup(n, id).NotAKey? }

  lemma FreeOfIsInherited(shape: Shape)
    ensures Inherited(v => FreeOf(shape, v))
  {
    forall value: string, i: nat, j: nat | i <= j <= |value| && FreeOf(shape, value)
      ensures FreeOf(shape, value[i..j])
    {
      PieceIsFreeOf(shape, value, i, j);
    }
  }

  lemma PieceHasShortcode(value: string, i: nat, j: nat, s: Span)
    requires i <= j <= |value| && ShortcodeAt(value[i..j], s)
    ensures ShortcodeAt(value, Span(i + s.index, s.length))
    ensures value[i..j][s.index..s.index + s.length] == value[i + s.index..i + s.index + s.length]
  {
    forall k | i + s.index < k < i + s.index + s.length - 1 ensures IsCode(value[k]) {
      assert value[i..j][k - i] == value[k];
    }
    PieceOfPiece(value, i, j, s.index, s.index + s.length);
  }

  lemma PieceOfPiece(value: string, i: nat, j: nat, a: nat, b: nat)
    requires i <= j <= |value| && a <= b <= j - i
    ensures value[i..j][a..b] == value[i + a..i + b]
  {
    forall k | 0 <= k < b - a ensures value[i..j][a..b][k] == value[i + a..i + b][k] {
      assert value[i..j][a..b][k] == value[i..j][a + k] == value[i + a + k];
    }
  }

  /** A shortcode holds no other. */
  lemma OnlyItself(found: string, s: Span)
    requires ShortcodeAt(found, Span(0, |found|)) && ShortcodeAt(found, s)
    ensures s == Span(0, |found|)
  {
    assert forall k :: 0 < k < |found| - 1 ==> found[k] != ':';
  }

  lemma GapHasNoEmoji(definitions: map<string, string>, value: string, from: nat, to: nat)
    requires from <= to <= |value|
    requires FindShortcode(value, from).Some? ==> to <= FindShortcode(value, from).value.index
    ensures EmojiFree(definitions, value[from..to])
  {
    forall s ensures !EmojiAt(definitions, value[from..to], s) {
      if ShortcodeAt(value[from..to], s) {
        PieceHasShortcode(value, from, to, s);
        FindsLeftmost(value, from, Span(from + s.index, s.length));
      }
    }
  }

  lemma DeclinedIsNoEmoji(definitions: map<string, string>, found: string)
    requires ShortcodeAt(found, Span(0, |found|)) && EmojiOutcome(definitions, found).metadata.None?
    ensures EmojiFree(definitions, found)
  {
    forall s ensures !EmojiAt(definitions, found, s) {
      if ShortcodeAt(found, s) {
        OnlyItself(found, s);
        assert found[0..|found|] == found;
      }
    }
  }

  ghost function NoEmoji(definitions: map<string, string>): string -> bool { v => EmojiFree(definitions, v) }

  lemma EmojiClearsHere(definitions: map<string, string>, value: string, from: nat, n: nat)
    requires from <= |value|
    ensures ClearsAt(EmojiProcessor(definitions), NoEmoji(definitions), value, from, n)
  {
    EmojiClearsAt(definitions, value, from);
    GapClears(EmojiProcessor(definitions), NoEmoji(definitions), value, from, n, FindShortcode(value, from));
  }

  lemma EmojiClears(definitions: map<string, string>)
    ensures Clears(EmojiProcessor(definitions), NoEmoji(definitions))
  {
    forall value: string, from: nat, n: nat
      ensures ClearsAt(EmojiProcessor(definitions), NoEmoji(definitions), value, from, n)
    {
      if from <= |value| { EmojiClearsHere(definitions, value, from, n); }
    }
  }

  lemma EmojiFreeIsInherited(definitions: map<string, string>)
    ensures Inherited(NoEmoji(definitions))
  {
    forall value: string, i: nat, j: nat | i <= j <= |value| && EmojiFree(definitions, value)
      ensures EmojiFree(definitions, value[i..j])
    {
      forall s ensures !EmojiAt(definitions, value[i..j], s) {
        if ShortcodeAt(value[i..j], s) {
          PieceHasShortcode(value, i, j, s);
          assert !EmojiAt(definitions, value, Span(i + s.index, s.length));
        }
      }
    }
  }

  lemma EmojiClearsAt(definitions: map<string, string>, value: string, from: nat)
    requires from <= |value|
    ensures var s := FindShortcode(value, from);
      EmojiFree(definitions, value[from..if s.None? then |value| else s.value.index])
    ensures var s := FindShortcode(value, from);
      s.Some? ==>
        var found := value[s.value.index..s.value.index + s.value.length];
        EmojiOutcome(definitions, found).metadata.None? ==> EmojiFree(definitions, found)
  {
    var s := FindShortcode(value, from);
    GapHasNoEmoji(definitions, value, from, if s.None? then |value| else s.value.index);
    if s.Some? {
      var found := value[s.value.index..s.value.index + s.value.length];
      assert ShortcodeAt(found, Span(0, |found|));
      if EmojiOutcome(definitions, found).metadata.None? { DeclinedIsNoEmoji(definitions, found); }
    }
  }

  lemma DisplayTextsAre(content: string, w: World, p: Processor, clean: string -> bool)
    requires p in Processors(w) && Clears(p, clean) && Inherited(clean)
    ensures AllMatch(Processors(w)) && TextsAre(clean, DisplayTokens(content, Processors(w)))
  {
    ProcessorsMatch(w);
    StagesClear(Processors(w), p, clean, Work([TextToken(Trim(content))], [], 0));
  }

  /** Text of a message as it is shown, in which there is nothing left to process. */
  ghost predicate Bare(w: World, value: string) {
    && UrlFree(w.isLetter, value) && EmojiFree(w.definitions, value)
    && FreeOf(NOTE, value) && FreeOf(NEVENT, value) && FreeOf(NADDR, value)
    && (AllKeys(w.people) ==> FreeOf(NPUB, value))
    && (AllKeys(w.profiles) ==> FreeOf(NPROFILE, value))
  }

  /** Main theorem: whatever the message, no text that is shown as plain text holds a link, an emoji its
      event defines, or an identifier of a note, an event or an address; nor one of a person, unless
      some such identifier is not a key. */
  lemma NothingIsOverlooked(content: string, w: World, t: Token)
    ensures AllMatch(Processors(w))
    ensures t in DisplayTokens(content, Processors(w)) && t.kind == "text" ==> Bare(w, t.value)
  {
    ProcessorsMatch(w);
    if t in DisplayTokens(content, Processors(w)) && t.kind == "text" {
      VerbatimClear(content, w, t);
      LinksClear(content, w, t, NOTE);
      LinksClear(content, w, t, NEVENT);
      LinksClear(content, w, t, NADDR);
      if AllKeys(w.people) { MentionsClear(content, w, t, NPUB, w.people); }
      if AllKeys(w.profiles) { MentionsClear(content, w, t, NPROFILE, w.profiles); }
    }
  }

  lemma VerbatimClear(content: string, w: World, t: Token)
    requires AllMatch(Processors(w)) && t in DisplayTokens(content, Processors(w)) && t.kind == "text"
    ensures UrlFree(w.isLetter, t.value) && EmojiFree(w.definitions, t.value)
  {
    var noUrl, noEmoji := v => UrlFree(w.isLetter, v), NoEmoji(w.definitions);
    UrlClears(w.isLetter);
    EmojiClears(w.definitions);
    EmojiFreeIsInherited(w.definitions);
    DisplayTextsAre(content, w, UrlProcessor(w.isLetter), noUrl);
    DisplayTextsAre(content, w, EmojiProcessor(w.definitions), noEmoji);
    assert TextIs(noUrl, t) && TextIs(noEmoji, t);
  }

  lemma LinksClear(content: string, w: World, t: Token, shape: Shape)
    requires AllMatch(Processors(w)) && t in DisplayTokens(content, Processors(w)) && t.kind == "text"
    requires shape.word != "" && LinkProcessor(shape) in Processors(w)
    ensures FreeOf(shape, t.value)
  {
    var clean := v => FreeOf(shape, v);
    LinkFinds(shape);
    RefsClear(LinkProcessor(shape), shape);
    FreeOfIsInherited(shape);
    DisplayTextsAre(content, w, LinkProcessor(shape), clean);
    assert TextIs(clean, t);
  }

  lemma MentionsClear(content: string, w: World, t: Token, shape: Shape, lookup: (nat, string) -> Lookup)
    requires AllMatch(Processors(w)) && t in DisplayTokens(content, Processors(w)) && t.kind == "text"
    requires shape.word != "" && AllKeys(lookup) && MentionProcessor(shape, lookup) in Processors(w)
    ensures FreeOf(shape, t.value)
  {
    var clean := v => FreeOf(shape, v);
    MentionFinds(shape, lookup);
    RefsClear(MentionProcessor(shape, lookup), shape);
    FreeOfIsInherited(shape);
    DisplayTextsAre(content, w, MentionProcessor(shape, lookup), clean);
    assert TextIs(clean, t);
  }

  // ---------------------------------------------------------------- matches are whole

  /** A link goes on for as long as there are characters of a link. */
  lemma UrlIsWhole(isLetter: char -> bool, value: string, at: nat, scheme: string)
    requires scheme == "https://" || scheme == "http://"
    requires HasWord(value, at, scheme) && UrlEnd(isLetter, value, at).Some?
    ensures var end := UrlEnd(isLetter, value, at).value;
      && (forall i :: at + |scheme| <= i < end ==> IsUrlChar(isLetter, value[i]))
      && (end < |value| ==> !IsUrlChar(isLetter, value[end]))
  {
    OneScheme(value, at);
    var class_, body := (c: char) => IsUrlChar(isLetter, c), at + |scheme|;
    var end := RunEnd(class_, value, body);
    assert UrlEnd(isLetter, value, at) == Some(end);
    RunIsWhole(class_, value, body, end);
  }

  lemma RunIsWhole(class_: char -> bool, value: string, from: nat, end: nat)
    requires from <= |value| && end == RunEnd(class_, value, from)
    ensures end < |value| ==> !class_(value[end])
  {
    if end < |value| && class_(value[end]) { RunReaches(class_, value, from, end + 1); }
  }

  /** An identifier is matched with its scheme and as far as it goes. */
  lemma RefIsWhole(shape: Shape, value: string, at: nat, end: nat)
    requires shape in SHAPES && RefAt(shape, value, at, end)
    ensures RefEnd(shape, value, at).Some? && end <= RefEnd(shape, value, at).value
  {
    if HasWord(value, at, SCHEME) && HasWord(value, at, shape.word) {
      LetterOf(value, at, SCHEME, 2);
      LetterOf(value, at, shape.word, 2);
    } else if IdAt(shape, value, at, end) {
      IdFound(shape, value, at, end);
    } else {
      IdFound(shape, value, at + |SCHEME|, end);
    }
  }

  // ---------------------------------------------------------------- what an identifier is

  ghost predicate IsRef(shape: Shape, text: string) { RefAt(shape, text, 0, |text|) }

  predicate AllBech32(body: string) { forall i :: 0 <= i < |body| ==> IsBech32(body[i]) }

  lemma NoScheme(word: string, body: string)
    requires |word| > 2 && word[2] != 's'
    ensures !HasWord(word + body, 0, SCHEME)
  {
    if HasWord(word + body, 0, SCHEME) { LetterOf(word + body, 0, SCHEME, 2); }
  }

  lemma BodyOf(shape: Shape, body: string)
    requires |shape.word| > 2 && shape.word[2] != 's'
    ensures IsRef(shape, shape.word + body)
       <==> && AllBech32(body) && shape.least <= |body|
            && (shape.most.Some? ==> |body| <= shape.most.value)
  {
    var text, n := shape.word + body, |shape.word|;
    NoScheme(shape.word, body);
    assert text[0..n] == shape.word;
    if forall i :: n <= i < |text| ==> IsBech32(text[i]) {
      forall i | 0 <= i < |body| ensures IsBech32(body[i]) { assert text[n + i] == body[i]; }
    } else {
      assert !IdAt(shape, text, 0, |text|);
    }
  }

  /** The identifiers of NIP-19 that are taken: with 58 characters a key, with 58 or 59 a note, with any number
      the other three. */
  lemma IdentifiersAre(body: string)
    ensures IsRef(NPUB, "npub1" + body) <==> AllBech32(body) && |body| == 58
    ensures IsRef(NOTE, "note1" + body) <==> AllBech32(body) && 58 <= |body| <= 59
    ensures IsRef(NPROFILE, "nprofile1" + body) <==> AllBech32(body) && body != ""
    ensures IsRef(NEVENT, "nevent1" + body) <==> AllBech32(body) && body != ""
    ensures IsRef(NADDR, "naddr1" + body) <==> AllBech32(body) && body != ""
  {
    BodyOf(NPUB, body);
    BodyOf(NOTE, body);
    BodyOf(NPROFILE, body);
    BodyOf(NEVENT, body);
    BodyOf(NADDR, body);
  }

  // ---------------------------------------------------------------- nothing else is taken

  ghost predicate IsUrl(isLetter: char -> bool, text: string, scheme: string) {
    scheme < text && forall i :: |scheme| <= i < |text| ==> IsUrlChar(isLetter, text[i])
  }

  ghost predicate IsAnyUrl(isLetter: char -> bool, text: string) {
    IsUrl(isLetter, text, "https://") || IsUrl(isLetter, text, "http://")
  }

  predicate IsLinkShape(shape: Shape) { shape == NOTE || shape == NEVENT || shape == NADDR }

  /** The mention says what a lookup of its identifier said. */
  ghost predicate SaysWhatWasFound(lookup: (nat, string) -> Lookup, t: Token, m: Metadata) {
    exists n: nat :: MentionOf(lookup(n, IdOf(m.originalText)), t, m)
  }

  predicate MentionOf(l: Lookup, t: Token, m: Metadata) {
    && !l.NotAKey? && m.npub == l.npub
    && (if l.Found? && l.name != "" then t.value == l.name || t.value == "@" + l.name
        else t.value == Abridged(IdOf(m.originalText)))
  }

  /** The token stands for something that is to be taken. */
  ghost predicate WellTaken(w: World, t: Token) {
    t.kind != "text" ==>
      && t.metadata.Some?
      && var m := t.metadata.value;
         || (t.kind == "url" && IsAnyUrl(w.isLetter, m.originalText))
         || (t.kind == "url" && exists shape :: IsLinkShape(shape) && IsRef(shape, m.originalText))
         || (t.kind == "emoji" && ShortcodeAt(m.originalText, Span(0, |m.originalText|))
             && Defined(w.definitions, m.originalText))
         || (t.kind == "mention" && IsRef(NPUB, m.originalText) && SaysWhatWasFound(w.people, t, m))
         || (t.kind == "mention" && IsRef(NPROFILE, m.originalText) && SaysWhatWasFound(w.profiles, t, m))
  }

  lemma WordInPiece(value: string, i: nat, j: nat, at: nat, word: string)
    requires i <= at && at + |word| <= j <= |value| && HasWord(value, at, word)
    ensures HasWord(value[i..j], at - i, word)
  {
    forall k | 0 <= k < |word| ensures value[i..j][at - i..at - i + |word|][k] == word[k] {
      LetterOf(value, at, word, k);
      assert value[i..j][at - i..at - i + |word|][k] == value[at + k];
    }
  }

  lemma RefInPiece(shape: Shape, value: string, i: nat, j: nat)
    requires RefAt(shape, value, i, j)
    ensures i <= j <= |value| && IsRef(shape, value[i..j])
  {
    if IdAt(shape, value, i, j) {
      WordInPiece(value, i, j, i, shape.word);
    } else {
      WordInPiece(value, i, j, i, SCHEME);
      WordInPiece(value, i, j, i + |SCHEME|, shape.word);
    }
  }

  lemma UrlInPiece(isLetter: char -> bool, value: string, at: nat, end: nat)
    requires UrlEnd(isLetter, value, at) == Some(end)
    ensures IsAnyUrl(isLetter, value[at..end])
  {
    UrlEndExactly(isLetter, value, at);
    if UrlAt(isLetter, value, at, "https://") { WholeUrl(isLetter, value, at, "https://"); }
    else { WholeUrl(isLetter, value, at, "http://"); }
  }

  lemma WholeUrl(isLetter: char -> bool, value: string, at: nat, scheme: string)
    requires scheme == "https://" || scheme == "http://"
    requires UrlAt(isLetter, value, at, scheme) && UrlEnd(isLetter, value, at).Some?
    ensures IsUrl(isLetter, value[at..UrlEnd(isLetter, value, at).value], scheme)
  {
    UrlIsWhole(isLetter, value, at, scheme);
    var end := UrlEnd(isLetter, value, at).value;
    assert at + |scheme| < end;
    WordInPiece(value, at, end, at, scheme);
    assert value[at..end][0..|scheme|] == scheme;
  }

  ghost function Taken(w: World): Token -> bool { t => WellTaken(w, t) }

  lemma UrlWellTaken(w: World, found: string)
    requires IsAnyUrl(w.isLetter, found)
    ensures WellTaken(w, TokenOf(Outcome(found, Some(Metadata("url", found, Some(found), None, None)))))
  {
  }

  /** What a processor answers at its next match is what it yields there. */
  lemma AnswerYields(p: Processor, good: Token -> bool, value: string, from: nat, n: nat, s: Span, o: Outcome)
    requires p.exec(value, from) == Some(s) && s.index + s.length <= |value|
    requires p.process(n, value[s.index..s.index + s.length], s.index, value) == o && good(TokenOf(o))
    ensures YieldsAt(p, good, value, from, n)
  {
  }

  /** The processor's match there, if it finds one, is a link. */
  ghost predicate FindsUrlAt(p: Processor, isLetter: char -> bool, value: string, from: nat) {
    var s := p.exec(value, from);
    s.Some? ==>
      && s.value.index + s.value.length <= |value|
      && IsAnyUrl(isLetter, value[s.value.index..s.value.index + s.value.length])
  }

  ghost predicate FindsUrls(p: Processor, isLetter: char -> bool) {
    forall value: string, from: nat :: FindsUrlAt(p, isLetter, value, from)
  }

  lemma UrlFound(isLetter: char -> bool, value: string, from: nat)
    ensures FindsUrlAt(UrlProcessor(isLetter), isLetter, value, from)
  {
    var s := FindUrl(isLetter, value, from);
    FoundUrl(isLetter, value, from, s);
    UrlThere(UrlProcessor(isLetter), isLetter, value, from, s);
  }

  lemma UrlThere(p: Processor, isLetter: char -> bool, value: string, from: nat, s: Option<Span>)
    requires p.exec(value, from) == s
    requires s.Some? ==> UrlEnd(isLetter, value, s.value.index) == Some(s.value.index + s.value.length)
    ensures FindsUrlAt(p, isLetter, value, from)
  {
    if s.Some? { UrlInPiece(isLetter, value, s.value.index, s.value.index + s.value.length); }
  }

  lemma UrlFinds(isLetter: char -> bool)
    ensures FindsUrls(UrlProcessor(isLetter), isLetter)
  {
    forall value: string, from: nat ensures FindsUrlAt(UrlProcessor(isLetter), isLetter, value, from) {
      UrlFound(isLetter, value, from);
    }
  }

  lemma UrlsYield(w: World, p: Processor)
    requires FindsUrls(p, w.isLetter)
    requires forall n: nat, found: string, index: nat, value: string {:trigger p.process(n, found, index, value)} ::
      p.process(n, found, index, value) == Outcome(found, Some(Metadata("url", found, Some(found), None, None)))
    ensures Yields(p, Taken(w))
  {
    forall value: string, from: nat, n: nat ensures YieldsAt(p, Taken(w), value, from, n) {
      var s := p.exec(value, from);
      assert FindsUrlAt(p, w.isLetter, value, from);
      if s.Some? {
        var found := value[s.value.index..s.value.index + s.value.length];
        UrlWellTaken(w, found);
        AnswerYields(p, Taken(w), value, from, n, s.value, p.process(n, found, s.value.index, value));
      }
    }
  }

  lemma UrlsWellTaken(w: World)
    ensures Yields(UrlProcessor(w.isLetter), Taken(w))
  {
    UrlFinds(w.isLetter);
    UrlsYield(w, UrlProcessor(w.isLetter));
  }

  lemma LinkWellTaken(w: World, shape: Shape, found: string)
    requires IsLinkShape(shape) && IsRef(shape, found)
    ensures WellTaken(w, TokenOf(LinkOutcome(found)))
  {
  }

  lemma RefsYield(p: Processor, shape: Shape, good: Token -> bool)
    requires FindsRefs(p, shape)
    requires forall n: nat, found: string, index: nat, value: string {:trigger p.process(n, found, index, value)} ::
      IsRef(shape, found) ==> good(TokenOf(p.process(n, found, index, value)))
    ensures Yields(p, good)
  {
    forall value: string, from: nat, n: nat ensures YieldsAt(p, good, value, from, n) {
      var s := p.exec(value, from);
      if s.Some? {
        var found := value[s.value.index..s.value.index + s.value.length];
        RefInPiece(shape, value, s.value.index, s.value.index + s.value.length);
        AnswerYields(p, good, value, from, n, s.value, p.process(n, found, s.value.index, value));
      }
    }
  }

  lemma LinksWellTaken(w: World, shape: Shape)
    requires IsLinkShape(shape) && shape.word != ""
    ensures Yields(LinkProcessor(shape), Taken(w))
  {
    var p := LinkProcessor(shape);
    LinkFinds(shape);
    forall n: nat, found: string, index: nat, value: string | IsRef(shape, found)
      ensures Taken(w)(TokenOf(p.process(n, found, index, value)))
    {
      LinkWellTaken(w, shape, found);
    }
    RefsYield(p, shape, Taken(w));
  }

  lemma EmojiWellTaken(w: World)
    ensures Yields(EmojiProcessor(w.definitions), Taken(w))
  {
    forall value: string, from: nat, n: nat
      ensures YieldsAt(EmojiProcessor(w.definitions), Taken(w), value, from, n)
    {
      var s := FindShortcode(value, from);
      if s.Some? {
        var found := value[s.value.index..s.value.index + s.value.length];
        assert ShortcodeAt(found, Span(0, |found|));
      }
    }
  }

  lemma MentionsWellTaken(w: World, shape: Shape, lookup: (nat, string) -> Lookup)
    requires shape.word != "" && ((shape == NPUB && lookup == w.people) || (shape == NPROFILE && lookup == w.profiles))
    ensures Yields(MentionProcessor(shape, lookup), Taken(w))
  {
    var p := MentionProcessor(shape, lookup);
    MentionFinds(shape, lookup);
    forall n: nat, found: string, index: nat, value: string | IsRef(shape, found)
      ensures Taken(w)(TokenOf(p.process(n, found, index, value)))
    {
      MentionWellTaken(w, shape, lookup, n, found, index, value);
    }
    RefsYield(p, shape, Taken(w));
  }

  lemma MentionWellTaken(w: World, shape: Shape, lookup: (nat, string) -> Lookup, n: nat, found: string, index: nat,
      value: string)
    requires IsRef(shape, found)
    requires (shape == NPUB && lookup == w.people) || (shape == NPROFILE && lookup == w.profiles)
    ensures WellTaken(w, TokenOf(MentionOutcome(lookup(n, IdOf(found)), found, index, value)))
  {
    var l := lookup(n, IdOf(found));
    var t := TokenOf(MentionOutcome(l, found, index, value));
    if !l.NotAKey? {
      assert MentionOf(l, t, t.metadata.value);
    }
  }

  /** And whatever is shown as something else than text stands for a piece of the message that is a link, an
      emoji its event defines, or an identifier; a mention shows the name that was found for it. */
  lemma NothingElseIsTaken(content: string, w: World, t: Token)
    ensures AllMatch(Processors(w))
    ensures t in DisplayTokens(content, Processors(w)) ==> WellTaken(w, t)
  {
    ProcessorsMatch(w);
    var good := Taken(w);
    UrlsWellTaken(w);
    EmojiWellTaken(w);
    MentionsWellTaken(w, NPUB, w.people);
    MentionsWellTaken(w, NPROFILE, w.profiles);
    LinksWellTaken(w, NOTE);
    LinksWellTaken(w, NEVENT);
    LinksWellTaken(w, NADDR);
    DisplayTokensYield(content, Processors(w), good);
    if t in DisplayTokens(content, Processors(w)) { assert good(t); }
  }
}
