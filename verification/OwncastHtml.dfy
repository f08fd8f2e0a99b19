/** Owncast chat HTML to text and back.

    Every regular expression the source rewrites with is a rule saying what it matches at the
    front of a string; `Replace` is the global, leftmost, non-overlapping rewrite of JavaScript. */
module OwncastHtml {
  import opened ContentTokens
  import opened Options

  datatype Result<+T> = Success(value: T) | RangeError

  datatype Match = NoMatch | Match(length: nat, text: string)

  datatype Rule =
    | Literal(pattern: string, text: string)   // split(pattern).join(text), or a one-character regex
    | LineBreak                                 // <br\s*\/?>
    | ParagraphGap                              // <\/p>\s*<p[^>]*>
    | Image                                     // <img[^>]*alt="([^"]*)"[^>]*>
    | Tag                                       // <[^>]+>
    | NumericRef                                // &#(\d+);

  predicate IsSpace(c: char) {
    c in {'\t', '\n', '\r', ' ', '\U{000B}', '\U{000C}', '\U{00A0}', '\U{1680}', '\U{2028}', '\U{2029}',
          '\U{202F}', '\U{205F}', '\U{3000}', '\U{FEFF}'} || '\U{2000}' <= c <= '\U{200A}'
  }

  function Lower(c: char): char { if 'A' <= c <= 'Z' then ((c as int) + 32) as char else c }

  /** Case-insensitive prefix test against a lower-case literal. */
  predicate Starts(s: string, literal: string) {
    |literal| <= |s| && forall i :: 0 <= i < |literal| ==> Lower(s[i]) == literal[i]
  }

  function SpaceRun(s: string): (n: nat)
    ensures n <= |s|
  {
    if s != "" && IsSpace(s[0]) then 1 + SpaceRun(s[1..]) else 0
  }

  /** Where c first occurs at or after `from`; the length when it does not. */
  function Find(s: string, c: char, from: nat): (i: nat)
    requires from <= |s|
    ensures from <= i <= |s| && (i < |s| ==> s[i] == c) && forall k :: from <= k < i ==> s[k] != c
    decreases |s| - from
  {
    if from == |s| || s[from] == c then from else Find(s, c, from + 1)
  }

  function UntilGt(s: string, from: nat, text: string): (m: Match)
    requires from <= |s|
    ensures m.Match? ==> from < m.length <= |s|
  {
    var g := Find(s, '>', from);
    if g < |s| then Match(g + 1, text) else NoMatch
  }

  /** An alt attribute opening at k whose value and tag both close. */
  function AltAt(s: string, k: nat): (m: Match)
    requires k <= |s|
    ensures m.Match? ==> k < m.length <= |s|
  {
    if Starts(s[k..], "alt=\"") then
      var q := Find(s, '"', k + 5);
      if q < |s| then UntilGt(s, q + 1, s[k + 5..q]) else NoMatch
    else NoMatch
  }

  /** [^>]* is greedy, so the last alt attribute that works wins. */
  function LastAlt(s: string, k: nat): (m: Match)
    requires k <= |s|
    ensures m.Match? ==> 0 < m.length <= |s|
  {
    if k < 4 then NoMatch
    else if AltAt(s, k).Match? then AltAt(s, k)
    else LastAlt(s, k - 1)
  }

  function Digits(s: string): (n: nat)
    ensures n <= |s| && forall i :: 0 <= i < n ==> '0' <= s[i] <= '9'
  {
    if s != "" && '0' <= s[0] <= '9' then 1 + Digits(s[1..]) else 0
  }

  function Number(digits: string): nat
    requires forall i :: 0 <= i < |digits| ==> '0' <= digits[i] <= '9'
  {
    if digits == "" then 0
    else 10 * Number(digits[..|digits| - 1]) + (digits[|digits| - 1] as int - '0' as int)
  }

  /** The character of a code point; a lone surrogate, which is no character, is kept as U+FFFD. */
  function FromCodePoint(n: nat): string {
    if n > 0x10FFFF then "" else if 0xD800 <= n < 0xE000 then "\U{FFFD}" else [n as char]
  }

  function MatchAt(rule: Rule, s: string): (m: Match)
    ensures m.Match? ==> 0 < m.length <= |s|
  {
    match rule
    case Literal(pattern, text) => if pattern != "" && pattern <= s then Match(|pattern|, text) else NoMatch
    case LineBreak =>
      if !Starts(s, "<br") then NoMatch else
      var k := 3 + SpaceRun(s[3..]);
      if k + 1 < |s| && s[k] == '/' && s[k + 1] == '>' then Match(k + 2, "\n")
      else if k < |s| && s[k] == '>' then Match(k + 1, "\n")
      else NoMatch
    case ParagraphGap =>
      if !Starts(s, "</p>") then NoMatch else
      var k := 4 + SpaceRun(s[4..]);
      if Starts(s[k..], "<p") then UntilGt(s, k + 2, "\n") else NoMatch
    case Image => if Starts(s, "<img") then LastAlt(s, Find(s, '>', 4)) else NoMatch
    case Tag => if 1 < |s| && s[0] == '<' && s[1] != '>' then UntilGt(s, 2, "") else NoMatch
    case NumericRef =>
      if !("&#" <= s) then NoMatch else
      var n := Digits(s[2..]);
      if n > 0 && 2 + n < |s| && s[2 + n] == ';' then Match(n + 3, FromCodePoint(Number(s[2..][..n]))) else NoMatch
  }

  function Replace(rule: Rule, s: string): string {
    if s == "" then ""
    else match MatchAt(rule, s)
      case Match(n, text) => text + Replace(rule, s[n..])
      case NoMatch => [s[0]] + Replace(rule, s[1..])
  }

  /** Whether some numeric reference the rewrite meets is beyond the last code point. */
  predicate Throws(s: string) {
    s != "" &&
    match MatchAt(NumericRef, s)
    case Match(n, text) => Number(s[2..][..Digits(s[2..])]) > 0x10FFFF || Throws(s[n..])
    case NoMatch => Throws(s[1..])
  }

  function TrimStart(s: string): string { if s != "" && IsSpace(s[0]) then TrimStart(s[1..]) else s }
  function TrimEnd(s: string): string { if s != "" && IsSpace(s[|s| - 1]) then TrimEnd(s[..|s| - 1]) else s }
  function Trim(s: string): string { TrimEnd(TrimStart(s)) }

  const NAMED_ENTITIES: seq<Rule> := [
    Literal("&amp;", "&"), Literal("&lt;", "<"), Literal("&gt;", ">"), Literal("&quot;", "\""),
    Literal("&#39;", "'"), Literal("&apos;", "'"), Literal("&nbsp;", " ")]

  /** Rewrite with each rule in turn. */
  function ReplaceAll(rules: seq<Rule>, s: string): string {
    if rules == [] then s else ReplaceAll(rules[1..], Replace(rules[0], s))
  }

  function Strip(html: string): string {
    Replace(Tag, Replace(Image, Replace(ParagraphGap, Replace(LineBreak, html))))
  }

  function Finish(text: string): Result<string> {
    if Throws(text) then RangeError else Success(Trim(Replace(NumericRef, text)))
  }

  function HtmlToText(html: string): Result<string> { Finish(ReplaceAll(NAMED_ENTITIES, Strip(html))) }

  method OwncastHtmlToText(html: string) returns (r: Result<string>)
    ensures r == HtmlToText(html)
  {
    var text := Replace(LineBreak, html);
    text := Replace(ParagraphGap, text);
    text := Replace(Image, text);
    text := Replace(Tag, text);
    var i := 0;
    while i < |NAMED_ENTITIES|
      invariant 0 <= i <= |NAMED_ENTITIES|
      invariant ReplaceAll(NAMED_ENTITIES[i..], text) == ReplaceAll(NAMED_ENTITIES, Strip(html))
    {
      text := Replace(NAMED_ENTITIES[i], text);
      assert NAMED_ENTITIES[i..][1..] == NAMED_ENTITIES[i + 1..];
      i := i + 1;
    }
    if Throws(text) { return RangeError; }
    text := Replace(NumericRef, text);
    return Success(Trim(text));
  }

  // ---------------------------------------------------------------- the printer

  function EscapeText(text: string): string {
    var ampersand := Replace(Literal("&", "&amp;"), text);
    var less := Replace(Literal("<", "&lt;"), ampersand);
    var greater := Replace(Literal(">", "&gt;"), less);
    var quote := Replace(Literal("\"", "&quot;"), greater);
    var apostrophe := Replace(Literal("'", "&#39;"), quote);
    Replace(Literal("\n", "<br/>"), apostrophe)
  }

  function TextToOwncastHtml(text: string): string { "<p>" + EscapeText(text) + "</p>" }

  /** ^https?:\/\/\S+$ */
  predicate IsWebUrl(url: string) {
    var k := if Starts(url, "https") then 5 else 4;
    && Starts(url, "http") && Starts(url[k..], "://") && k + 3 < |url|
    && forall i :: k + 3 <= i < |url| ==> !IsSpace(url[i])
  }

  function Anchor(href: string, shown: string): string {
    "<a href=\"" + EscapeText(href) + "\">" + EscapeText(shown) + "</a>"
  }

  function InlineImage(src: string, alt: string): string {
    "<img src=\"" + EscapeText(src) + "\" class=\"emoji\" alt=\"" + EscapeText(alt)
      + "\" title=\"" + EscapeText(alt) + "\"/>"
  }

  /** How one token is rendered. */
  datatype Rendering = Plain | Linked(href: string) | Inline(src: string)

  function RenderingOf(t: Token, emoji: map<string, string>): Rendering {
    if t.metadata.None? then Plain else
    var m := t.metadata.value;
    if t.kind == "url" && m.url.Some? && IsWebUrl(m.url.value) then Linked(m.url.value)
    else if t.kind == "mention" && m.npub.Some? then Linked("https://njump.me/" + m.npub.value)
    else if t.kind == "emoji" && m.imageUrl.Some? && IsWebUrl(m.imageUrl.value) then
      var image := m.imageUrl.value;
      if image in emoji && emoji[image] != "" then Inline(emoji[image]) else Linked(image)
    else Plain
  }

  function RenderToken(t: Token, emoji: map<string, string>): string {
    match RenderingOf(t, emoji)
    case Plain => EscapeText(t.value)
    case Linked(href) => Anchor(href, t.value)
    case Inline(src) => InlineImage(src, t.value)
  }

  function RenderTokens(tokens: seq<Token>, emoji: map<string, string>): string {
    if tokens == [] then "" else RenderToken(tokens[0], emoji) + RenderTokens(tokens[1..], emoji)
  }

  function TokensToOwncastHtml(tokens: seq<Token>, emoji: map<string, string>): string {
    "<p>" + RenderTokens(tokens, emoji) + "</p>"
  }
}
