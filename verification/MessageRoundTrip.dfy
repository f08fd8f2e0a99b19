/** The custom-emoji processor, and a message's whole way: through the pipeline into Owncast HTML
    and back into the text the bridge's own listener reads. */
module MessageRoundTrip {
  import opened ContentTokens
  import opened ContentPipeline
  import opened OwncastHtml
  import opened HtmlDecoding
  import opened Options
  import opened Patterns

  // ---------------------------------------------------------------- :shortcode:

  predicate IsCode(c: char) {
    'a' <= c <= 'z' || 'A' <= c <= 'Z' || '0' <= c <= '9' || c == '_' || c == '-'
  }

  /** :([a-zA-Z0-9_-]+): from lastIndex on. */
  function FindShortcode(value: string, from: nat): (s: Option<Span>)
    ensures s.Some? ==> from <= s.value.index && ShortcodeAt(value, s.value)
    decreases |value| - from
  {
    if from >= |value| then None
    else
      var end := if value[from] == ':' then RunEnd(IsCode, value, from + 1) else from;
      if end > from + 1 && end < |value| && value[end] == ':' then Some(Span(from, end + 1 - from))
      else FindShortcode(value, from + 1)
  }

  ghost predicate ShortcodeAt(value: string, s: Span) {
    && s.length >= 3 && s.index + s.length <= |value|
    && value[s.index] == ':' == value[s.index + s.length - 1]
    && forall i :: s.index < i < s.index + s.length - 1 ==> IsCode(value[i])
  }

  /** No shortcode is overlooked between lastIndex and the match, or to the end without one. */
  lemma {:induction false} FindsLeftmost(value: string, from: nat, t: Span)
    requires from <= t.index && ShortcodeAt(value, t)
    ensures FindShortcode(value, from).Some? && FindShortcode(value, from).value.index <= t.index
    ensures FindShortcode(value, from).value.index == t.index ==> FindShortcode(value, from).value == t
    decreases |value| - from
  {
    if value[from] == ':' {
      var end := RunEnd(IsCode, value, from + 1);
      if from == t.index {
        RunReaches(IsCode, value, from + 1, t.index + t.length - 1);
      } else if !(end > from + 1 && end < |value| && value[end] == ':') {
        FindsLeftmost(value, from + 1, t);
      }
    } else {
      FindsLeftmost(value, from + 1, t);
    }
  }

  /** The answer for one match, given the event's emoji tags. */
  function EmojiOutcome(definitions: map<string, string>, found: string): Outcome {
    var shortcode := if |found| >= 2 then found[1..|found| - 1] else "";
    if shortcode !in definitions || definitions[shortcode] == "" then Outcome(found, None)
    else Outcome(found, Some(Metadata("emoji", found, None, None, Some(definitions[shortcode]))))
  }

  function EmojiProcessor(definitions: map<string, string>): Processor {
    Processor((value: string, from: nat) => FindShortcode(value, from),
              (n: nat, found: string, index: nat, value: string) => EmojiOutcome(definitions, found))
  }

  // ---------------------------------------------------------------- what tokens have in common

  /** The token the processor makes of its own match has the property. */
  ghost predicate YieldsAt(p: Processor, good: Token -> bool, value: string, from: nat, n: nat) {
    var found := p.exec(value, from);
    found.Some? && found.value.index + found.value.length <= |value| ==>
      var s := found.value;
      good(TokenOf(p.process(n, value[s.index..s.index + s.length], s.index, value)))
  }

  ghost predicate Yields(p: Processor, good: Token -> bool) {
    forall value: string, from: nat, n: nat :: YieldsAt(p, good, value, from, n)
  }

  ghost predicate All(tokens: seq<Token>, good: Token -> bool) { forall t :: t in tokens ==> good(t) }

  ghost predicate GoodText(good: Token -> bool) { forall v :: good(TextToken(v)) }

  lemma {:induction false} SplitYields(p: Processor, value: string, from: nat, last: nat, w: Work, good: Token -> bool)
    requires Matches(p) && last <= from <= |value| && Ordered(AllSpans(p, value, from), last, |value|)
    requires Yields(p, good)
    requires GoodText(good) && All(w.tokens, good)
    ensures All(SplitAt(p, value, AllSpans(p, value, from), last, w).tokens, good)
    decreases |value| - from
  {
    var spans := AllSpans(p, value, from);
    if spans != [] {
      var s := spans[0];
      assert p.exec(value, from) == Some(s);
      var end := s.index + s.length;
      assert spans[1..] == AllSpans(p, value, end);
      var w1 := PushText(w, value[last..s.index]);
      assert YieldsAt(p, good, value, from, w1.calls);
      SplitYields(p, value, end, end, PushMatch(p, value, s, w1), good);
    }
  }

  lemma {:induction false} TokensYield(p: Processor, tokens: seq<Token>, w: Work, good: Token -> bool)
    requires Matches(p) && GoodText(good) && All(tokens, good) && All(w.tokens, good)
    requires Yields(p, good)
    ensures All(ProcessTokens(p, tokens, w).tokens, good)
    decreases |tokens|
  {
    if tokens != [] {
      if tokens[0].kind == "text" { SplitYields(p, tokens[0].value, 0, 0, w, good); }
      TokensYield(p, tokens[1..], ProcessToken(p, tokens[0], w), good);
    }
  }

  lemma {:induction false} StagesYield(ps: seq<Processor>, w: Work, good: Token -> bool)
    requires AllMatch(ps) && GoodText(good) && All(w.tokens, good)
    requires forall p :: p in ps ==> Yields(p, good)
    ensures All(Stages(ps, w).tokens, good)
    decreases |ps|
  {
    if ps != [] {
      assert ps[0] in ps;
      TokensYield(ps[0], w.tokens, w.(tokens := []), good);
      StagesYield(ps[1..], Stage(ps[0], w), good);
    }
  }

  // ---------------------------------------------------------------- the whole way

  /** Emoji tokens hold a shortcode: their text ends with its colon. */
  predicate EmojiEndsWell(t: Token) { t.kind == "emoji" ==> t.value == "" || t.value[|t.value| - 1] != '=' }

  /** The token shows what it stands for. */
  predicate ShowsItsSource(t: Token) { SourceText(t) == t.value }

  /** The concrete emoji processor meets everything the pipeline asks of a processor. */
  lemma EmojiProcessorIsSound(definitions: map<string, string>)
    ensures var p := EmojiProcessor(definitions);
      Matches(p) && Faithful(p) && Yields(p, EmojiEndsWell) && Yields(p, ShowsItsSource)
  {
    var p := EmojiProcessor(definitions);
    forall value: string, from: nat, n: nat ensures YieldsAt(p, EmojiEndsWell, value, from, n) {
      var s := FindShortcode(value, from);
      if s.Some? {
        var found := value[s.value.index..s.value.index + s.value.length];
        assert found[|found| - 1] == ':';
      }
    }
    forall value: string, from: nat, n: nat ensures YieldsAt(p, ShowsItsSource, value, from, n) {
    }
  }

  // ---------------------------------------------------------------- what is sent

  /** Plain text and tokens of a message; no tokens when `text` is the raw content. */
  datatype Rendered = Rendered(text: string, tokens: Option<seq<Token>>)

  /** In the plain-text form a link shows its target, everything else its display text. */
  function InPlain(t: Token): string {
    if t.kind == "url" && t.metadata.Some? && t.metadata.value.url.Some? then t.metadata.value.url.value else t.value
  }

  function PlainForm(tokens: seq<Token>): string {
    if tokens == [] then "" else InPlain(tokens[0]) + PlainForm(tokens[1..])
  }

  /** A live chat message is trimmed before it is processed; an empty one has no tokens at all. */
  function DisplayTokens(content: string, ps: seq<Processor>): seq<Token>
    requires AllMatch(ps)
  {
    if Trim(content) == "" then [] else Processed(Trim(content), ps).tokens
  }

  /** processNostrContent: raw content when the pipeline throws or leaves nothing to show. */
  function Render(content: string, ps: seq<Processor>, throws: bool): Rendered
    requires AllMatch(ps)
  {
    if throws then Rendered(content, None)
    else
      var tokens := DisplayTokens(content, ps);
      if Trim(PlainForm(tokens)) == "" then Rendered(content, None) else Rendered(PlainForm(tokens), Some(tokens))
  }

  /** The HTML sendMessage hands to the pool. */
  function SentHtml(r: Rendered, emoji: map<string, string>): string {
    if r.tokens.Some? && r.tokens.value != [] then TokensToOwncastHtml(r.tokens.value, emoji)
    else TextToOwncastHtml(r.text)
  }

  /** What a reader of the source chat is to see. */
  function Shown(r: Rendered): string { if r.tokens.Some? then Values(r.tokens.value) else r.text }

  lemma DisplayTokensYield(content: string, ps: seq<Processor>, good: Token -> bool)
    requires AllMatch(ps) && GoodText(good) && forall p :: p in ps ==> Yields(p, good)
    ensures All(DisplayTokens(content, ps), good)
  {
    StagesYield(ps, Work([TextToken(Trim(content))], [], 0), good);
  }

  /** Main theorem: whatever a Nostr message is made of, and whether the pipeline handles it, throws
      or leaves nothing to show, reading back the HTML the bridge sends for it gives the text it
      shows, references decoded and ends trimmed. */
  lemma {:induction false} ListenerReadsTheDisplayText(
      content: string, ps: seq<Processor>, throws: bool, emoji: map<string, string>)
    requires AllMatch(ps) && forall p :: p in ps ==> Yields(p, EmojiEndsWell)
    ensures var r := Render(content, ps, throws);
      HtmlToText(SentHtml(r, emoji)) == Finish(ReplaceAll(References(), Shown(r)))
  {
    DisplayTokensYield(content, ps, EmojiEndsWell);
    var r := Render(content, ps, throws);
    if r.tokens.Some? {
      ParseOfPrintedTokens(r.tokens.value, emoji);
    } else {
      ParseOfPrintedText(content);
    }
  }

  /** With processors that show matches as they are, as emoji and plain links do, the text shown is
      the message itself, or the trimmed message where the pipeline had its way. */
  lemma {:induction false} ShowsTheMessage(content: string, ps: seq<Processor>, throws: bool)
    requires AllMatch(ps) && AllFaithful(ps) && forall p :: p in ps ==> Yields(p, ShowsItsSource)
    ensures var r := Render(content, ps, throws); Shown(r) == if r.tokens.Some? then Trim(content) else content
  {
    DisplayTokensYield(content, ps, ShowsItsSource);
    PipelineConserves(Trim(content), ps);
    ShownIsSource(DisplayTokens(content, ps));
  }

  /** With such processors a message crosses over and back unchanged, on every path it can take, if
      and only if it is trimmed and spells out no reference. */
  lemma {:induction false} VerbatimMessageSurvives(
      content: string, ps: seq<Processor>, throws: bool, emoji: map<string, string>)
    requires AllMatch(ps) && AllFaithful(ps)
    requires forall p :: p in ps ==> Yields(p, EmojiEndsWell) && Yields(p, ShowsItsSource)
    ensures HtmlToText(SentHtml(Render(content, ps, throws), emoji)) == Success(content)
       <==> Trim(content) == content && !SpellsReference(content)
  {
    ListenerReadsTheDisplayText(content, ps, throws, emoji);
    ShowsTheMessage(content, ps, throws);
    FinishExactly(content);
    FinishIsTrimmed(ReplaceAll(References(), Shown(Render(content, ps, throws))));
  }

  lemma FinishIsTrimmed(text: string)
    ensures Finish(text).Success? ==> Trim(Finish(text).value) == Finish(text).value
  {
    TrimFacts(Replace(NumericRef, text));
  }

  lemma {:induction false} ShownIsSource(tokens: seq<Token>)
    requires All(tokens, ShowsItsSource)
    ensures Values(tokens) == SourceTexts(tokens)
  {
    if tokens != [] {
      assert tokens[0] in tokens;
      ShownIsSource(tokens[1..]);
    }
  }
}
