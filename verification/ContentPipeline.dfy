/** The content pipeline: processors in turn split text tokens at their matches.

    A processor is its regular expression, as the function exec(value, lastIndex), and its
    asynchronous process function. `process` is given the ordinal of the call, so the same match may
    be answered differently each time, as name lookups are. */
module ContentPipeline {
  import opened ContentTokens
  import opened Options

  /** A match, by position. */
  datatype Span = Span(index: nat, length: nat)

  datatype Outcome = Outcome(result: string, metadata: Option<Metadata>)

  datatype Processor = Processor(
    exec: (string, nat) -> Option<Span>,
    process: (nat, string, nat, string) -> Outcome)

  datatype Replacement = Replacement(kind: string, originalText: string, displayText: string)

  /** What a regular expression with non-empty matches gives from lastIndex on. */
  ghost predicate Matches(p: Processor) {
    forall value: string, from: nat {:trigger p.exec(value, from)} :: p.exec(value, from).Some? ==>
      var s := p.exec(value, from).value; from <= s.index && 0 < s.length && s.index + s.length <= |value|
  }

  /** A processor that answers with the match itself, or with metadata naming the match. */
  ghost predicate Faithful(p: Processor) {
    forall n: nat, found: string, index: nat, value: string {:trigger p.process(n, found, index, value)} ::
      var o := p.process(n, found, index, value);
      if o.metadata.None? then o.result == found
      else o.metadata.value.originalText == found && o.metadata.value.kind != "text"
  }

  ghost predicate AllMatch(ps: seq<Processor>) { forall p :: p in ps ==> Matches(p) }
  ghost predicate AllFaithful(ps: seq<Processor>) { forall p :: p in ps ==> Faithful(p) }

  // ---------------------------------------------------------------- the specification

  /** All matches in a text from `from` on. */
  function AllSpans(p: Processor, value: string, from: nat): (spans: seq<Span>)
    requires Matches(p) && from <= |value|
    ensures Ordered(spans, from, |value|)
    decreases |value| - from
  {
    var found := p.exec(value, from);
    if found.None? then []
    else [found.value] + AllSpans(p, value, found.value.index + found.value.length)
  }

  /** Non-empty, non-overlapping and in order, within from..to. */
  ghost predicate Ordered(spans: seq<Span>, from: nat, to: nat) {
    spans == [] ||
    (from <= spans[0].index && 0 < spans[0].length && spans[0].index + spans[0].length <= to
      && Ordered(spans[1..], spans[0].index + spans[0].length, to))
  }

  function TextToken(value: string): Token { Token("text", value, None) }

  function TokenOf(o: Outcome): Token {
    if o.metadata.None? then TextToken(o.result)
    else Token(if o.metadata.value.kind == "" then "unknown" else o.metadata.value.kind, o.result, o.metadata)
  }

  function ReplacementsOf(found: string, o: Outcome): seq<Replacement> {
    if o.metadata.None? then [] else [Replacement(TokenOf(o).kind, found, o.result)]
  }

  /** Tokens, replacements and the number of process calls so far. */
  datatype Work = Work(tokens: seq<Token>, replacements: seq<Replacement>, calls: nat)

  function Push(w: Work, t: Token): Work { w.(tokens := w.tokens + [t]) }

  function PushText(w: Work, value: string): Work { if value == "" then w else Push(w, TextToken(value)) }

  function PushMatch(p: Processor, value: string, s: Span, w: Work): Work
    requires s.index + s.length <= |value|
  {
    var found := value[s.index..s.index + s.length];
    var o := p.process(w.calls, found, s.index, value);
    Work(w.tokens + [TokenOf(o)], w.replacements + ReplacementsOf(found, o), w.calls + 1)
  }

  /** Split one text at the given matches, from `last` on. */
  function SplitAt(p: Processor, value: string, spans: seq<Span>, last: nat, w: Work): Work
    requires last <= |value| && Ordered(spans, last, |value|)
    decreases |spans|
  {
    if spans == [] then PushText(w, value[last..])
    else
      var s := spans[0];
      SplitAt(p, value, spans[1..], s.index + s.length, PushMatch(p, value, s, PushText(w, value[last..s.index])))
  }

  function ProcessToken(p: Processor, t: Token, w: Work): Work
    requires Matches(p)
  {
    if t.kind != "text" then Push(w, t)
    else
      var spans := AllSpans(p, t.value, 0);
      if spans == [] then Push(w, t) else SplitAt(p, t.value, spans, 0, w)
  }

  function ProcessTokens(p: Processor, tokens: seq<Token>, w: Work): Work
    requires Matches(p)
    decreases |tokens|
  {
    if tokens == [] then w else ProcessTokens(p, tokens[1..], ProcessToken(p, tokens[0], w))
  }

  function Stage(p: Processor, w: Work): Work
    requires Matches(p)
  {
    ProcessTokens(p, w.tokens, w.(tokens := []))
  }

  function Stages(ps: seq<Processor>, w: Work): Work
    requires AllMatch(ps)
    decreases |ps|
  {
    if ps == [] then w else Stages(ps[1..], Stage(ps[0], w))
  }

  function Processed(content: string, ps: seq<Processor>): Work
    requires AllMatch(ps)
  {
    Stages(ps, Work([TextToken(content)], [], 0))
  }

  // ---------------------------------------------------------------- the nested loops

  method ProcessContent(content: string, ps: seq<Processor>)
    returns (text: string, replacements: seq<Replacement>, tokens: seq<Token>)
    requires AllMatch(ps)
    ensures tokens == Processed(content, ps).tokens && replacements == Processed(content, ps).replacements
    ensures text == Values(tokens)
  {
    var w := Work([TextToken(content)], [], 0);
    var k := 0;
    while k < |ps|
      invariant 0 <= k <= |ps|
      invariant Stages(ps[k..], w) == Processed(content, ps)
    {
      assert ps[k..][1..] == ps[k + 1..] && ps[k] in ps;
      w := RunStage(ps[k], w);
      k := k + 1;
    }
    text := "";
    var i := 0;
    while i < |w.tokens|
      invariant 0 <= i <= |w.tokens|
      invariant text == Values(w.tokens[..i])
    {
      assert w.tokens[..i + 1] == w.tokens[..i] + [w.tokens[i]];
      ValuesConcat(w.tokens[..i], [w.tokens[i]]);
      assert Values([w.tokens[i]]) == w.tokens[i].value + "" == w.tokens[i].value;
      text := text + w.tokens[i].value;
      i := i + 1;
    }
    assert w.tokens[..i] == w.tokens;
    replacements, tokens := w.replacements, w.tokens;
  }

  method RunStage(p: Processor, before: Work) returns (w: Work)
    requires Matches(p)
    ensures w == Stage(p, before)
  {
    var tokens := before.tokens;
    w := before.(tokens := []);
    var i := 0;
    while i < |tokens|
      invariant 0 <= i <= |tokens|
      invariant ProcessTokens(p, tokens[i..], w) == Stage(p, before)
    {
      var token := tokens[i];
      assert tokens[i..][1..] == tokens[i + 1..];
      i := i + 1;
      if token.kind != "text" {
        w := w.(tokens := w.tokens + [token]);
        continue;
      }
      var spans := FindAll(p, token.value);
      if |spans| == 0 {
        w := w.(tokens := w.tokens + [token]);
        continue;
      }
      w := Split(p, token.value, spans, w);
    }
  }

  method FindAll(p: Processor, value: string) returns (spans: seq<Span>)
    requires Matches(p)
    ensures spans == AllSpans(p, value, 0)
  {
    spans := [];
    var lastIndex: nat := 0;
    var found := p.exec(value, lastIndex);
    while found.Some?
      invariant lastIndex <= |value| && found == p.exec(value, lastIndex)
      invariant spans + AllSpans(p, value, lastIndex) == AllSpans(p, value, 0)
      decreases |value| - lastIndex
    {
      spans := spans + [found.value];
      lastIndex := found.value.index + found.value.length;
      found := p.exec(value, lastIndex);
    }
  }

  /** The plain text before a match, if any, and then the match itself. */
  method TakeMatch(p: Processor, value: string, s: Span, lastIndex: nat, before: Work) returns (w: Work)
    requires lastIndex <= s.index && s.index + s.length <= |value|
    ensures w == PushMatch(p, value, s, PushText(before, value[lastIndex..s.index]))
  {
    w := before;
    if s.index > lastIndex {
      w := w.(tokens := w.tokens + [TextToken(value[lastIndex..s.index])]);
    }
    var found := value[s.index..s.index + s.length];
    var outcome := p.process(w.calls, found, s.index, value);
    if outcome.metadata.Some? {
      w := Work(w.tokens + [TokenOf(outcome)], w.replacements + ReplacementsOf(found, outcome), w.calls + 1);
    } else {
      w := Work(w.tokens + [TextToken(outcome.result)], w.replacements + [], w.calls + 1);
    }
  }

  method Split(p: Processor, value: string, spans: seq<Span>, before: Work) returns (w: Work)
    requires Ordered(spans, 0, |value|)
    ensures w == SplitAt(p, value, spans, 0, before)
  {
    w := before;
    var lastIndex: nat := 0;
    var j: nat := 0;
    while j < |spans|
      invariant 0 <= j <= |spans| && lastIndex <= |value| && Ordered(spans[j..], lastIndex, |value|)
      invariant SplitAt(p, value, spans[j..], lastIndex, w) == SplitAt(p, value, spans, 0, before)
    {
      var s := spans[j];
      assert spans[j..][0] == s && spans[j..][1..] == spans[j + 1..];
      w := TakeMatch(p, value, s, lastIndex, w);
      lastIndex := s.index + s.length;
      j := j + 1;
    }
    if lastIndex < |value| {
      w := w.(tokens := w.tokens + [TextToken(value[lastIndex..])]);
    }
  }

  // ---------------------------------------------------------------- conservation

  /** The part of the input a token stands for. */
  function SourceText(t: Token): string {
    if t.kind == "text" || t.metadata.None? then t.value else t.metadata.value.originalText
  }

  function SourceTexts(tokens: seq<Token>): string {
    if tokens == [] then "" else SourceText(tokens[0]) + SourceTexts(tokens[1..])
  }

  lemma SourceTextsConcat(a: seq<Token>, b: seq<Token>)
    ensures SourceTexts(a + b) == SourceTexts(a) + SourceTexts(b)
  {
    if a == [] {
      assert a + b == b;
    } else {
      assert (a + b)[1..] == a[1..] + b;
      SourceTextsConcat(a[1..], b);
    }
  }

  lemma SourceTextsPush(tokens: seq<Token>, t: Token)
    ensures SourceTexts(tokens + [t]) == SourceTexts(tokens) + SourceText(t)
  {
    SourceTextsConcat(tokens, [t]);
    assert [t][1..] == [] && SourceText(t) + "" == SourceText(t);
  }

  lemma PushTextConserves(w: Work, value: string)
    ensures SourceTexts(PushText(w, value).tokens) == SourceTexts(w.tokens) + value
  {
    SourceTextsPush(w.tokens, TextToken(value));
  }

  lemma PushMatchConserves(p: Processor, value: string, s: Span, w: Work)
    requires s.index + s.length <= |value| && Faithful(p)
    ensures SourceTexts(PushMatch(p, value, s, w).tokens) == SourceTexts(w.tokens) + value[s.index..s.index + s.length]
  {
    var found := value[s.index..s.index + s.length];
    var o := p.process(w.calls, found, s.index, value);
    SourceTextsPush(w.tokens, TokenOf(o));
    assert SourceText(TokenOf(o)) == found;
  }

  lemma {:induction false} SplitConserves(p: Processor, value: string, spans: seq<Span>, last: nat, w: Work)
    requires last <= |value| && Ordered(spans, last, |value|) && Faithful(p)
    ensures SourceTexts(SplitAt(p, value, spans, last, w).tokens) == SourceTexts(w.tokens) + value[last..]
    decreases |spans|
  {
    if spans == [] {
      PushTextConserves(w, value[last..]);
    } else {
      var s := spans[0];
      var end := s.index + s.length;
      var w2 := PushMatch(p, value, s, PushText(w, value[last..s.index]));
      var out := SplitAt(p, value, spans[1..], end, w2);
      assert SplitAt(p, value, spans, last, w) == out;
      SplitConserves(p, value, spans[1..], end, w2);
      assert SourceTexts(out.tokens) == SourceTexts(w.tokens) + value[last..] by {
        OneCutConserves(p, value, s, last, w);
        Cut(SourceTexts(w.tokens), value, last, s.index, end);
      }
    }
  }

  lemma OneCutConserves(p: Processor, value: string, s: Span, last: nat, w: Work)
    requires last <= s.index && s.index + s.length <= |value| && Faithful(p)
    ensures SourceTexts(PushMatch(p, value, s, PushText(w, value[last..s.index])).tokens)
         == SourceTexts(w.tokens) + value[last..s.index] + value[s.index..s.index + s.length]
  {
    PushTextConserves(w, value[last..s.index]);
    PushMatchConserves(p, value, s, PushText(w, value[last..s.index]));
  }

  lemma Reassociate(a: string, b: string, c: string)
    ensures a + (b + c) == a + b + c
  {
  }

  lemma Cut(front: string, value: string, i: nat, j: nat, k: nat)
    requires i <= j <= k <= |value|
    ensures front + value[i..j] + value[j..k] + value[k..] == front + value[i..]
  {
  }

  lemma TokenConserves(p: Processor, t: Token, w: Work)
    requires Matches(p) && Faithful(p)
    ensures SourceTexts(ProcessToken(p, t, w).tokens) == SourceTexts(w.tokens) + SourceText(t)
  {
    SourceTextsPush(w.tokens, t);
    if t.kind == "text" && AllSpans(p, t.value, 0) != [] {
      SplitConserves(p, t.value, AllSpans(p, t.value, 0), 0, w);
      assert t.value[0..] == t.value;
    }
  }

  lemma {:induction false} TokensConserve(p: Processor, tokens: seq<Token>, w: Work)
    requires Matches(p) && Faithful(p)
    ensures SourceTexts(ProcessTokens(p, tokens, w).tokens) == SourceTexts(w.tokens) + SourceTexts(tokens)
    decreases |tokens|
  {
    if tokens != [] {
      var u := ProcessToken(p, tokens[0], w);
      TokenConserves(p, tokens[0], w);
      TokensConserve(p, tokens[1..], u);
      assert ProcessTokens(p, tokens, w) == ProcessTokens(p, tokens[1..], u);
      Reassociate(SourceTexts(w.tokens), SourceText(tokens[0]), SourceTexts(tokens[1..]));
    }
  }

  lemma {:induction false} StagesConserve(ps: seq<Processor>, w: Work)
    requires AllMatch(ps) && AllFaithful(ps)
    ensures SourceTexts(Stages(ps, w).tokens) == SourceTexts(w.tokens)
    decreases |ps|
  {
    if ps != [] {
      assert ps[0] in ps;
      TokensConserve(ps[0], w.tokens, w.(tokens := []));
      StagesConserve(ps[1..], Stage(ps[0], w));
    }
  }

  /** Main theorem: the tokens of processed content, read back as the text each one stands for, are
      the content itself. Nothing is lost, repeated or reordered, whatever the processors match. */
  lemma {:induction false} PipelineConserves(content: string, ps: seq<Processor>)
    requires AllMatch(ps) && AllFaithful(ps)
    ensures SourceTexts(Processed(content, ps).tokens) == content
  {
    StagesConserve(ps, Work([TextToken(content)], [], 0));
    SourceTextsPush([], TextToken(content));
    assert [] + [TextToken(content)] == [TextToken(content)];
  }

  // ---------------------------------------------------------------- specialised tokens

  function Specials(tokens: seq<Token>): seq<Token> {
    if tokens == [] then [] else (if tokens[0].kind != "text" then [tokens[0]] else []) + Specials(tokens[1..])
  }

  lemma SpecialsConcat(a: seq<Token>, b: seq<Token>)
    ensures Specials(a + b) == Specials(a) + Specials(b)
  {
    if a == [] {
      assert a + b == b;
    } else {
      assert (a + b)[1..] == a[1..] + b;
      SpecialsConcat(a[1..], b);
    }
  }

  ghost predicate Subsequence(a: seq<Token>, b: seq<Token>) {
    a == [] || (b != [] && ((a[0] == b[0] && Subsequence(a[1..], b[1..])) || Subsequence(a, b[1..])))
  }

  lemma {:induction false} SubsequenceRefl(a: seq<Token>)
    ensures Subsequence(a, a)
  {
    if a != [] { SubsequenceRefl(a[1..]); }
  }

  /** Whatever is put in front leaves a subsequence a subsequence. */
  lemma {:induction false} SubsequenceBehind(a: seq<Token>, front: seq<Token>, b: seq<Token>)
    requires Subsequence(a, b)
    ensures Subsequence(a, front + b)
  {
    if front == [] {
      assert front + b == b;
    } else {
      assert (front + b)[1..] == front[1..] + b;
      SubsequenceBehind(a, front[1..], b);
    }
  }

  lemma {:induction false} SubsequenceTrans(a: seq<Token>, b: seq<Token>, c: seq<Token>)
    requires Subsequence(a, b) && Subsequence(b, c)
    ensures Subsequence(a, c)
    decreases |c|
  {
    if a != [] {
      if b[0] == c[0] && Subsequence(b[1..], c[1..]) {
        if a[0] == b[0] && Subsequence(a[1..], b[1..]) {
          SubsequenceTrans(a[1..], b[1..], c[1..]);
        } else {
          SubsequenceTrans(a, b[1..], c[1..]);
        }
      } else {
        SubsequenceTrans(a, b, c[1..]);
      }
    }
  }

  /** Processing only ever appends to what was already pushed. */
  lemma {:induction false} SplitAppends(p: Processor, value: string, spans: seq<Span>, last: nat, w: Work)
    requires last <= |value| && Ordered(spans, last, |value|)
    ensures w.tokens <= SplitAt(p, value, spans, last, w).tokens
    decreases |spans|
  {
    if spans != [] {
      var s := spans[0];
      SplitAppends(p, value, spans[1..], s.index + s.length, PushMatch(p, value, s, PushText(w, value[last..s.index])));
    }
  }

  /** The tokens pushed after `from`, counted from there, contain all the specialised ones. */
  lemma {:induction false} TokensKeepSpecials(p: Processor, tokens: seq<Token>, w: Work)
    requires Matches(p)
    ensures w.tokens <= ProcessTokens(p, tokens, w).tokens
    ensures Subsequence(Specials(tokens), Specials(ProcessTokens(p, tokens, w).tokens[|w.tokens|..]))
    decreases |tokens|
  {
    if tokens != [] {
      var t, w1 := tokens[0], ProcessToken(p, tokens[0], w);
      if t.kind == "text" && AllSpans(p, t.value, 0) != [] {
        SplitAppends(p, t.value, AllSpans(p, t.value, 0), 0, w);
      }
      TokensKeepSpecials(p, tokens[1..], w1);
      var out := ProcessTokens(p, tokens, w).tokens;
      var front, back := w1.tokens[|w.tokens|..], out[|w1.tokens|..];
      assert out[|w.tokens|..] == front + back;
      SpecialsConcat(front, back);
      if t.kind == "text" {
        SubsequenceBehind(Specials(tokens[1..]), Specials(front), Specials(back));
        assert Specials(tokens) == Specials(tokens[1..]);
      } else {
        assert front == [t] && Specials(front) == [t];
        assert Specials(tokens)[1..] == Specials(tokens[1..]) && ([t] + Specials(back))[1..] == Specials(back);
      }
    }
  }

  /** Main theorem: once made, a specialised token reaches the output unchanged and in order. */
  lemma {:induction false} SpecialsSurvive(ps: seq<Processor>, w: Work)
    requires AllMatch(ps)
    ensures Subsequence(Specials(w.tokens), Specials(Stages(ps, w).tokens))
    decreases |ps|
  {
    if ps == [] {
      SubsequenceRefl(Specials(w.tokens));
    } else {
      assert ps[0] in ps;
      var w1 := Stage(ps[0], w);
      TokensKeepSpecials(ps[0], w.tokens, w.(tokens := []));
      assert w1.tokens[0..] == w1.tokens;
      SpecialsSurvive(ps[1..], w1);
      SubsequenceTrans(Specials(w.tokens), Specials(w1.tokens), Specials(Stages(ps[1..], w1).tokens));
    }
  }

  // ---------------------------------------------------------------- the text that is left

  /** Pieces of such a text are such texts. */
  ghost predicate Inherited(clean: string -> bool) {
    forall value: string, i: nat, j: nat :: i <= j <= |value| && clean(value) ==> clean(value[i..j])
  }

  ghost predicate TextIs(clean: string -> bool, t: Token) { t.kind == "text" ==> clean(t.value) }

  ghost predicate TextsAre(clean: string -> bool, tokens: seq<Token>) { forall t :: t in tokens ==> TextIs(clean, t) }

  lemma PushTextKeeps(clean: string -> bool, w: Work, value: string)
    requires clean(value) && TextsAre(clean, w.tokens)
    ensures TextsAre(clean, PushText(w, value).tokens)
  {
  }

  lemma PushMatchKeeps(p: Processor, clean: string -> bool, value: string, s: Span, w: Work)
    requires s.index + s.length <= |value| && Faithful(p) && TextsAre(clean, w.tokens)
    requires var found := value[s.index..s.index + s.length];
      p.process(w.calls, found, s.index, value).metadata.None? ==> clean(found)
    ensures TextsAre(clean, PushMatch(p, value, s, w).tokens)
  {
    var found := value[s.index..s.index + s.length];
    var o := p.process(w.calls, found, s.index, value);
    assert TextIs(clean, TokenOf(o));
  }

  lemma {:induction false} SplitKeeps(p: Processor, clean: string -> bool, value: string, spans: seq<Span>, last: nat,
      w: Work)
    requires last <= |value| && Ordered(spans, last, |value|) && Faithful(p)
    requires Inherited(clean) && clean(value) && TextsAre(clean, w.tokens)
    ensures TextsAre(clean, SplitAt(p, value, spans, last, w).tokens)
    decreases |spans|
  {
    if spans == [] {
      assert value[last..] == value[last..|value|];
      PushTextKeeps(clean, w, value[last..]);
    } else {
      var s := spans[0];
      var w1 := PushText(w, value[last..s.index]);
      PushTextKeeps(clean, w, value[last..s.index]);
      PushMatchKeeps(p, clean, value, s, w1);
      SplitKeeps(p, clean, value, spans[1..], s.index + s.length, PushMatch(p, value, s, w1));
    }
  }

  lemma {:induction false} TokensKeep(p: Processor, clean: string -> bool, tokens: seq<Token>, w: Work)
    requires Matches(p) && Faithful(p) && Inherited(clean) && TextsAre(clean, tokens) && TextsAre(clean, w.tokens)
    ensures TextsAre(clean, ProcessTokens(p, tokens, w).tokens)
    decreases |tokens|
  {
    if tokens != [] {
      var t := tokens[0];
      assert t in tokens && TextIs(clean, t);
      if t.kind == "text" { SplitKeeps(p, clean, t.value, AllSpans(p, t.value, 0), 0, w); }
      TokensKeep(p, clean, tokens[1..], ProcessToken(p, t, w));
    }
  }

  /** What holds of all text, and of every piece of it, the processors leave so. */
  lemma {:induction false} StagesKeep(ps: seq<Processor>, clean: string -> bool, w: Work)
    requires AllMatch(ps) && AllFaithful(ps) && Inherited(clean) && TextsAre(clean, w.tokens)
    ensures TextsAre(clean, Stages(ps, w).tokens)
    decreases |ps|
  {
    if ps != [] {
      assert ps[0] in ps;
      TokensKeep(ps[0], clean, w.tokens, w.(tokens := []));
      StagesKeep(ps[1..], clean, Stage(ps[0], w));
    }
  }

  /** From any place on, the text up to the processor's next match is clean, and so is a match it declines. */
  ghost predicate ClearsAt(p: Processor, clean: string -> bool, value: string, from: nat, n: nat) {
    from <= |value| ==>
      var found := p.exec(value, from);
      if found.None? then clean(value[from..])
      else
        var s := found.value;
        from <= s.index && s.index + s.length <= |value| ==>
          && clean(value[from..s.index])
          && var piece := value[s.index..s.index + s.length];
             p.process(n, piece, s.index, value).metadata.None? ==> clean(piece)
  }

  ghost predicate Clears(p: Processor, clean: string -> bool) {
    forall value: string, from: nat, n: nat :: ClearsAt(p, clean, value, from, n)
  }

  lemma {:induction false} SplitClears(p: Processor, clean: string -> bool, value: string, from: nat, w: Work)
    requires Matches(p) && Faithful(p) && Clears(p, clean) && from <= |value| && TextsAre(clean, w.tokens)
    ensures TextsAre(clean, SplitAt(p, value, AllSpans(p, value, from), from, w).tokens)
    decreases |value| - from
  {
    var spans := AllSpans(p, value, from);
    assert ClearsAt(p, clean, value, from, w.calls);
    if spans != [] {
      var s := spans[0];
      assert p.exec(value, from) == Some(s);
      var end := s.index + s.length;
      assert spans[1..] == AllSpans(p, value, end);
      var w1 := PushText(w, value[from..s.index]);
      PushTextKeeps(clean, w, value[from..s.index]);
      assert ClearsAt(p, clean, value, from, w1.calls);
      PushMatchKeeps(p, clean, value, s, w1);
      SplitClears(p, clean, value, end, PushMatch(p, value, s, w1));
    }
  }

  /** After such a processor no text but clean text is left. */
  lemma {:induction false} TokensClear(p: Processor, clean: string -> bool, tokens: seq<Token>, w: Work)
    requires Matches(p) && Faithful(p) && Clears(p, clean) && TextsAre(clean, w.tokens)
    ensures TextsAre(clean, ProcessTokens(p, tokens, w).tokens)
    decreases |tokens|
  {
    if tokens != [] {
      var t := tokens[0];
      if t.kind == "text" {
        SplitClears(p, clean, t.value, 0, w);
        assert ClearsAt(p, clean, t.value, 0, 0) && t.value[0..] == t.value;
      }
      TokensClear(p, clean, tokens[1..], ProcessToken(p, t, w));
    }
  }

  /** Nor after any processors that have it among them. */
  lemma {:induction false} StagesClear(ps: seq<Processor>, p: Processor, clean: string -> bool, w: Work)
    requires AllMatch(ps) && AllFaithful(ps) && p in ps && Clears(p, clean) && Inherited(clean)
    ensures TextsAre(clean, Stages(ps, w).tokens)
    decreases |ps|
  {
    assert ps[0] in ps;
    if ps[0] == p {
      TokensClear(p, clean, w.tokens, w.(tokens := []));
      StagesKeep(ps[1..], clean, Stage(p, w));
    } else {
      StagesClear(ps[1..], p, clean, Stage(ps[0], w));
    }
  }

  // ---------------------------------------------------------------- replacements

  /** What a specialised token has to report. */
  function ReplacementOf(t: Token): Replacement { Replacement(t.kind, SourceText(t), t.value) }

  function Once(t: Token, r: Replacement): nat { if t.kind != "text" && ReplacementOf(t) == r then 1 else 0 }

  function TimesMade(tokens: seq<Token>, r: Replacement): nat {
    if tokens == [] then 0 else TimesMade(tokens[..|tokens| - 1], r) + Once(tokens[|tokens| - 1], r)
  }

  function TimesReported(replacements: seq<Replacement>, r: Replacement): nat { multiset(replacements)[r] }

  /** How many more reports there are than specialised tokens pushed. */
  function Surplus(w: Work, r: Replacement): int { TimesReported(w.replacements, r) - TimesMade(w.tokens, r) }

  lemma MadePush(tokens: seq<Token>, t: Token, r: Replacement)
    ensures TimesMade(tokens + [t], r) == TimesMade(tokens, r) + Once(t, r)
  {
    assert (tokens + [t])[..|tokens|] == tokens;
  }

  lemma {:induction false} MadeSplit(t: Token, tokens: seq<Token>, r: Replacement)
    ensures TimesMade([t] + tokens, r) == Once(t, r) + TimesMade(tokens, r)
  {
    if tokens == [] {
      assert [t] + tokens == [] + [t];
      MadePush([], t, r);
    } else {
      var n := |tokens| - 1;
      MadeSplit(t, tokens[..n], r);
      MadePush([t] + tokens[..n], tokens[n], r);
      assert [t] + tokens[..n] + [tokens[n]] == [t] + tokens;
    }
  }

  lemma TextKeepsSurplus(w: Work, value: string, r: Replacement)
    ensures Surplus(PushText(w, value), r) == Surplus(w, r)
  {
    MadePush(w.tokens, TextToken(value), r);
  }

  lemma MatchKeepsSurplus(p: Processor, value: string, s: Span, w: Work, r: Replacement)
    requires s.index + s.length <= |value| && Faithful(p)
    ensures Surplus(PushMatch(p, value, s, w), r) == Surplus(w, r)
  {
    var found := value[s.index..s.index + s.length];
    var o := p.process(w.calls, found, s.index, value);
    OutcomeKeepsSurplus(found, o, w, PushMatch(p, value, s, w), r);
  }

  lemma OutcomeKeepsSurplus(found: string, o: Outcome, w: Work, after: Work, r: Replacement)
    requires o.metadata.Some? ==> o.metadata.value.originalText == found && o.metadata.value.kind != "text"
    requires after == Work(w.tokens + [TokenOf(o)], w.replacements + ReplacementsOf(found, o), w.calls + 1)
    ensures Surplus(after, r) == Surplus(w, r)
  {
    OutcomeReports(found, o, r);
    BothKeepSurplus(w, TokenOf(o), ReplacementsOf(found, o), w.calls + 1, r);
  }

  lemma OutcomeReports(found: string, o: Outcome, r: Replacement)
    requires o.metadata.Some? ==> o.metadata.value.originalText == found && o.metadata.value.kind != "text"
    ensures var made := ReplacementsOf(found, o);
      |made| <= 1 && Once(TokenOf(o), r) == if made != [] && made[0] == r then 1 else 0
  {
    assert "unknown"[0] != "text"[0];
  }

  lemma BothKeepSurplus(w: Work, t: Token, made: seq<Replacement>, calls: nat, r: Replacement)
    requires |made| <= 1 && Once(t, r) == if made != [] && made[0] == r then 1 else 0
    ensures Surplus(Work(w.tokens + [t], w.replacements + made, calls), r) == Surplus(w, r)
  {
    MadePush(w.tokens, t, r);
    ReportedPush(w.replacements, made, r);
  }

  lemma ReportedPush(a: seq<Replacement>, b: seq<Replacement>, r: Replacement)
    requires |b| <= 1
    ensures TimesReported(a + b, r) == TimesReported(a, r) + if b != [] && b[0] == r then 1 else 0
  {
    assert multiset(a + b) == multiset(a) + multiset(b);
    assert b != [] ==> b == [b[0]];
  }

  lemma {:induction false} SplitKeepsSurplus(p: Processor, value: string, spans: seq<Span>, last: nat, w: Work,
      r: Replacement)
    requires last <= |value| && Ordered(spans, last, |value|) && Faithful(p)
    ensures Surplus(SplitAt(p, value, spans, last, w), r) == Surplus(w, r)
    decreases |spans|
  {
    if spans == [] {
      TextKeepsSurplus(w, value[last..], r);
    } else {
      var s := spans[0];
      var w1 := PushText(w, value[last..s.index]);
      TextKeepsSurplus(w, value[last..s.index], r);
      MatchKeepsSurplus(p, value, s, w1, r);
      SplitKeepsSurplus(p, value, spans[1..], s.index + s.length, PushMatch(p, value, s, w1), r);
    }
  }

  lemma {:induction false} TokensKeepSurplus(p: Processor, tokens: seq<Token>, w: Work, r: Replacement)
    requires Matches(p) && Faithful(p)
    ensures Surplus(ProcessTokens(p, tokens, w), r) == Surplus(w, r) - TimesMade(tokens, r)
    decreases |tokens|
  {
    if tokens != [] {
      var t := tokens[0];
      MadePush(w.tokens, t, r);
      if t.kind == "text" { SplitKeepsSurplus(p, t.value, AllSpans(p, t.value, 0), 0, w, r); }
      TokensKeepSurplus(p, tokens[1..], ProcessToken(p, t, w), r);
      MadeSplit(t, tokens[1..], r);
      assert [t] + tokens[1..] == tokens;
    }
  }

  lemma {:induction false} StagesKeepSurplus(ps: seq<Processor>, w: Work, r: Replacement)
    requires AllMatch(ps) && AllFaithful(ps)
    ensures Surplus(Stages(ps, w), r) == Surplus(w, r)
    decreases |ps|
  {
    if ps != [] {
      assert ps[0] in ps;
      TokensKeepSurplus(ps[0], w.tokens, w.(tokens := []), r);
      StagesKeepSurplus(ps[1..], Stage(ps[0], w), r);
    }
  }

  /** The replacements reported for a message are those of its specialised tokens, each as often as it
      occurs: the kind, the text of the message it stands for, and what is shown instead. */
  lemma {:induction false} ReplacementsAreExact(content: string, ps: seq<Processor>, r: Replacement)
    requires AllMatch(ps) && AllFaithful(ps)
    ensures TimesReported(Processed(content, ps).replacements, r) == TimesMade(Processed(content, ps).tokens, r)
  {
    MadePush([], TextToken(content), r);
    assert [] + [TextToken(content)] == [TextToken(content)];
    StagesKeepSurplus(ps, Work([TextToken(content)], [], 0), r);
  }
}
