/** What a reader of the source chat sees of a message the bridge prints: every character with the link
    it is under, and every picture.

    The reader is an HTML tokenizer of its own and knows nothing of the printer. It goes through the
    message character by character, takes entities for the characters they name, keeps quoted
    attribute values apart from the rest of a tag, and looks at nothing but the names and attributes
    of the tags it meets. */
module SourceReader {
  import opened ContentTokens
  import opened HtmlRoundTrip
  import opened OwncastHtml
  import opened Options

  datatype Glyph = Letter(c: char, link: Option<string>) | Picture(src: string, alt: string)

  /** In a tag, the parts between double quotes: every second one is the value of an attribute. */
  datatype Mode = InText | InEntity(name: string) | InTag(parts: seq<string>)

  datatype Reader = Reader(mode: Mode, link: Option<string>, seen: seq<Glyph>)

  // ---------------------------------------------------------------- the reader

  function NamedChar(name: string): char {
    if name == "amp" then '&' else if name == "lt" then '<' else if name == "gt" then '>'
    else if name == "quot" then '"' else if name == "#39" then '\'' else '\U{FFFD}'
  }

  /** An attribute value with its entities decoded. */
  function Unescape(value: string): string {
    if value == "" then ""
    else
      var end := Find(value, ';', 0);
      if value[0] == '&' && end < |value| then [NamedChar(value[1..end])] + Unescape(value[end + 1..])
      else [value[0]] + Unescape(value[1..])
  }

  /** What stands before the first space. */
  function Word(s: string): string { if s == "" || s[0] == ' ' then "" else [s[0]] + Word(s[1..]) }

  predicate EndsWith(s: string, end: string) { |end| <= |s| && s[|s| - |end|..] == end }

  function Attribute(parts: seq<string>, name: string): Option<string> {
    if |parts| < 2 then None
    else if EndsWith(parts[0], " " + name + "=") then Some(Unescape(parts[1]))
    else Attribute(parts[2..], name)
  }

  function OrEmpty(value: Option<string>): string { if value.Some? then value.value else "" }

  function Emit(r: Reader, g: Glyph): Reader { r.(mode := InText, seen := r.seen + [g]) }

  /** A tag is complete. Any that is no break, link or picture goes unnoticed. */
  function Close(r: Reader, parts: seq<string>): Reader
    requires parts != []
  {
    var name := Word(parts[0]);
    if name == "br/" then Emit(r, Letter('\n', r.link))
    else if name == "a" then r.(mode := InText, link := Attribute(parts, "href"))
    else if name == "/a" then r.(mode := InText, link := None)
    else if name == "img" then Emit(r, Picture(OrEmpty(Attribute(parts, "src")), OrEmpty(Attribute(parts, "alt"))))
    else r.(mode := InText)
  }

  function AddTo(parts: seq<string>, u: string): seq<string>
    requires parts != []
  {
    parts[..|parts| - 1] + [parts[|parts| - 1] + u]
  }

  function Step(r: Reader, c: char): Reader {
    match r.mode
    case InText =>
      if c == '<' then r.(mode := InTag([""]))
      else if c == '&' then r.(mode := InEntity(""))
      else Emit(r, Letter(c, r.link))
    case InEntity(name) =>
      if c == ';' then Emit(r, Letter(NamedChar(name), r.link)) else r.(mode := InEntity(name + [c]))
    case InTag(parts) =>
      if parts == [] then r
      else if c == '"' then r.(mode := InTag(parts + [""]))
      else if c == '>' && |parts| % 2 == 1 then Close(r, parts)
      else r.(mode := InTag(AddTo(parts, [c])))
  }

  function Read(r: Reader, s: string): Reader
    decreases |s|
  {
    if s == "" then r else Read(Step(r, s[0]), s[1..])
  }

  function View(html: string): seq<Glyph> { Read(Reader(InText, None, []), html).seen }

  // ---------------------------------------------------------------- what should be seen

  function Letters(text: string, link: Option<string>): seq<Glyph> {
    seq(|text|, i requires 0 <= i < |text| => Letter(text[i], link))
  }

  /** A line break in an attribute is printed as a tag and read as one, letter by letter. */
  function AsAttribute(value: string): string { Encode({'\n'}, value) }

  /** The instance's own picture of an emoji: the image it is tagged with is one of the instance's. */
  function OwnPicture(t: Token, emoji: map<string, string>): Option<string> {
    if t.kind == "emoji" && t.metadata.Some? && t.metadata.value.imageUrl.Some? then
      var image := t.metadata.value.imageUrl.value;
      if IsWebUrl(image) && image in emoji && emoji[image] != "" then Some(emoji[image]) else None
    else None
  }

  /** Where a token that is shown as text leads. */
  function LinkOf(t: Token): Option<string> {
    if t.metadata.None? then None
    else if t.kind == "url" then WebOnly(t.metadata.value.url)
    else if t.kind == "emoji" then WebOnly(t.metadata.value.imageUrl)
    else if t.kind == "mention" && t.metadata.value.npub.Some? then
      Some(AsAttribute("https://njump.me/" + t.metadata.value.npub.value))
    else None
  }

  function WebOnly(url: Option<string>): Option<string> { if url.Some? && IsWebUrl(url.value) then url else None }

  function TokenShown(t: Token, emoji: map<string, string>): seq<Glyph> {
    if OwnPicture(t, emoji).Some?
    then [Picture(AsAttribute(OwnPicture(t, emoji).value), AsAttribute(t.value))]
    else Letters(t.value, LinkOf(t))
  }

  function AllShown(tokens: seq<Token>, emoji: map<string, string>): seq<Glyph> {
    if tokens == [] then [] else TokenShown(tokens[0], emoji) + AllShown(tokens[1..], emoji)
  }

  // ---------------------------------------------------------------- reading what was printed

  lemma {:induction false} ReadConcat(r: Reader, a: string, b: string)
    ensures Read(r, a + b) == Read(Read(r, a), b)
    decreases |a|
  {
    if a == "" {
      assert a + b == b;
    } else {
      assert (a + b)[0] == a[0] && (a + b)[1..] == a[1..] + b;
      ReadConcat(Step(r, a[0]), a[1..], b);
    }
  }

  lemma ReadOne(r: Reader, c: char)
    ensures Read(r, [c]) == Step(r, c)
  {
    assert [c][1..] == "";
  }

  /** Inside a tag everything but quotes, and '>' outside them, is taken as it is. */
  lemma {:induction false} ReadInTag(r: Reader, u: string)
    requires r.mode.InTag? && r.mode.parts != [] && '"' !in u && ('>' !in u || |r.mode.parts| % 2 == 0)
    ensures Read(r, u) == r.(mode := InTag(AddTo(r.mode.parts, u)))
    decreases |u|
  {
    var parts := r.mode.parts;
    var last := parts[|parts| - 1];
    if u == "" {
      assert last + u == last && parts[..|parts| - 1] + [last] == parts;
    } else {
      assert u[0] in u;
      var t := r.(mode := InTag(AddTo(parts, [u[0]])));
      ReadInTag(t, u[1..]);
      assert last + [u[0]] + u[1..] == last + u;
      assert AddTo(AddTo(parts, [u[0]]), u[1..]) == AddTo(parts, u);
    }
  }

  /** The opening of a tag and its text up to the first quote or to its end. */
  lemma ReadOpening(r: Reader, u: string)
    requires r.mode.InText? && '"' !in u && '>' !in u
    ensures Read(r, "<" + u) == r.(mode := InTag([u]))
  {
    ReadConcat(r, "<", u);
    ReadOne(r, '<');
    ReadInTag(r.(mode := InTag([""])), u);
    assert AddTo([""], u) == ["" + u] && "" + u == u;
  }

  lemma ReadTag(r: Reader, u: string)
    requires r.mode.InText? && '"' !in u && '>' !in u
    ensures Read(r, "<" + u + ">") == Close(r.(mode := InTag([u])), [u])
  {
    ReadOpening(r, u);
    ReadEnd(r, "<" + u, [u]);
  }

  lemma ReadEnd(r: Reader, before: string, parts: seq<string>)
    requires |parts| % 2 == 1 && Read(r, before) == r.(mode := InTag(parts))
    ensures Read(r, before + ">") == Close(r.(mode := InTag(parts)), parts)
  {
    ReadConcat(r, before, ">");
    ReadOne(r.(mode := InTag(parts)), '>');
  }

  // ---------------------------------------------------------------- escaped text

  lemma ReadCode(r: Reader, c: char)
    requires r.mode.InText?
    ensures Read(r, Code(SPECIAL, c)) == Emit(r, Letter(c, r.link))
  {
    if c == '\n' {
      ReadTag(r, "br/");
      assert "<" + "br/" + ">" == "<br/>";
      WordsOfTags();
    } else if c in INLINE {
      ReadEntity(r, c);
    } else {
      ReadOne(r, c);
    }
  }

  /** The name an entity is written with. */
  function EntityOf(c: char): string {
    if c == '&' then "amp" else if c == '<' then "lt" else if c == '>' then "gt" else if c == '"' then "quot" else "#39"
  }

  lemma EntityNames(c: char)
    requires c in INLINE
    ensures Name(c) == "&" + EntityOf(c) + ";" && NamedChar(EntityOf(c)) == c && ';' !in EntityOf(c)
  {
  }

  lemma {:induction false} ReadInEntity(r: Reader, u: string)
    requires r.mode.InEntity? && ';' !in u
    ensures Read(r, u) == r.(mode := InEntity(r.mode.name + u))
    decreases |u|
  {
    if u == "" {
      assert r.mode.name + u == r.mode.name;
    } else {
      assert u[0] in u;
      ReadInEntity(r.(mode := InEntity(r.mode.name + [u[0]])), u[1..]);
      assert r.mode.name + [u[0]] + u[1..] == r.mode.name + u;
    }
  }

  lemma ReadEntity(r: Reader, c: char)
    requires r.mode.InText? && c in INLINE
    ensures Read(r, Name(c)) == Emit(r, Letter(c, r.link))
  {
    EntityNames(c);
    var u := EntityOf(c);
    ReadOne(r, '&');
    ReadConcat(r, "&", u);
    ReadInEntity(r.(mode := InEntity("")), u);
    assert "" + u == u;
    ReadConcat(r, "&" + u, ";");
    ReadOne(r.(mode := InEntity(u)), ';');
  }

  lemma {:induction false} ReadEscaped(r: Reader, text: string)
    requires r.mode.InText?
    ensures Read(r, Encode(SPECIAL, text)) == r.(seen := r.seen + Letters(text, r.link))
    decreases |text|
  {
    if text == "" {
      assert r.seen + Letters(text, r.link) == r.seen;
    } else {
      ReadConcat(r, Code(SPECIAL, text[0]), Encode(SPECIAL, text[1..]));
      ReadCode(r, text[0]);
      var t := Emit(r, Letter(text[0], r.link));
      ReadEscaped(t, text[1..]);
      assert Letters(text, r.link) == [Letter(text[0], r.link)] + Letters(text[1..], r.link);
      assert t.seen + Letters(text[1..], r.link) == r.seen + Letters(text, r.link);
    }
  }

  lemma EscapedHoldsNoQuote(text: string)
    ensures '"' !in Encode(SPECIAL, text)
  {
    if text != "" {
      EscapedHoldsNoQuote(text[1..]);
      if text[0] in INLINE { NamesHoldNoMarkup(text[0]); }
    }
  }

  lemma UnescapeEntity(c: char, rest: string)
    requires c in INLINE
    ensures Unescape(Name(c) + rest) == [c] + Unescape(rest)
  {
    EntityNames(c);
    var s, u := Name(c) + rest, EntityOf(c);
    assert s == "&" + u + ";" + rest;
    var end := |u| + 1;
    assert s[end] == ';' && s[1..end] == u && s[end + 1..] == rest && s[0] == '&';
    forall i | 0 <= i < end ensures s[i] != ';' { if i > 0 { assert s[i] == u[i - 1]; } }
    FindFirst(s, ';', 0, end);
  }

  lemma {:induction false} FindFirst(s: string, c: char, from: nat, at: nat)
    requires from <= at < |s| && s[at] == c && forall i :: from <= i < at ==> s[i] != c
    ensures Find(s, c, from) == at
    decreases at - from
  {
    if from < at { FindFirst(s, c, from + 1, at); }
  }

  lemma {:induction false} UnescapePlain(u: string, rest: string)
    requires '&' !in u
    ensures Unescape(u + rest) == u + Unescape(rest)
    decreases |u|
  {
    if u == "" {
      assert u + rest == rest && u + Unescape(rest) == Unescape(rest);
    } else {
      assert u[0] in u && (u + rest)[0] == u[0] && (u + rest)[1..] == u[1..] + rest;
      UnescapePlain(u[1..], rest);
      assert [u[0]] + (u[1..] + Unescape(rest)) == u + Unescape(rest);
    }
  }

  /** Decoding an escaped attribute value gives the value, its line breaks apart. */
  lemma {:induction false} UnescapeEscaped(text: string)
    ensures Unescape(Encode(SPECIAL, text)) == AsAttribute(text)
  {
    if text != "" {
      var c, rest := text[0], Encode(SPECIAL, text[1..]);
      UnescapeEscaped(text[1..]);
      if c in INLINE {
        UnescapeEntity(c, rest);
      } else if c == '\n' {
        UnescapePlain("<br/>", rest);
      } else {
        UnescapePlain([c], rest);
      }
    }
  }

  lemma AttributeKept(value: string)
    requires '\n' !in value
    ensures AsAttribute(value) == value
  {
    if value != "" {
      assert value[0] in value;
      AttributeKept(value[1..]);
    }
  }

  // ---------------------------------------------------------------- the printed tags

  lemma WordsOfTags()
    ensures Word("p") == "p" && Word("/p") == "/p" && Word("br/") == "br/" && Word("/a") == "/a"
    ensures Word("a href=") == "a" && Word("img src=") == "img"
  {
    assert Word("img src=") == "i" + Word("mg src=") == "i" + ("m" + Word("g src="));
    assert Word("g src=") == "g" + Word(" src=");
    assert Word("br/") == "b" + ("r" + Word("/"));
  }

  lemma ReadAnchor(r: Reader, href: string, shown: string)
    requires r.mode.InText? && r.link.None?
    ensures Read(r, Anchor(href, shown)) == r.(seen := r.seen + Letters(shown, Some(AsAttribute(href))))
  {
    var h, v := EscapeText(href), EscapeText(shown);
    EscapeIsCharacterwise(href);
    EscapeIsCharacterwise(shown);
    EscapedHoldsNoQuote(href);
    UnescapeEscaped(href);
    ReadAnchorPieces(r, "<a href=\"", h, "\">", shown, "</a>");
  }

  lemma ReadAnchorPieces(r: Reader, open: string, h: string, mid: string, shown: string, close: string)
    requires r.mode.InText? && r.link.None? && '"' !in h
    requires open == "<a href=\"" && mid == "\">" && close == "</a>"
    ensures Read(r, open + h + mid + Encode(SPECIAL, shown) + close)
         == r.(seen := r.seen + Letters(shown, Some(Unescape(h))))
  {
    var r1 := r.(link := Some(Unescape(h)));
    ReadOpenQuote(r, open, "a href=");
    FilledIn(r, open, ["a href="], h);
    ReadConcat(r, open + h, mid);
    ReadClosing(r.(mode := InTag(["a href="] + [h])), mid, "");
    HrefOf(h, ["a href="] + [h] + [""]);
    WordsOfTags();
    assert Read(r, open + h + mid) == r1;
    ReadConcat(r, open + h + mid, Encode(SPECIAL, shown));
    ReadEscaped(r1, shown);
    ReadConcat(r, open + h + mid + Encode(SPECIAL, shown), close);
    ReadUnlink(r1.(seen := r1.seen + Letters(shown, r1.link)), close);
  }

  lemma HrefOf(h: string, parts: seq<string>)
    requires parts == ["a href="] + [h] + [""]
    ensures Attribute(parts, "href") == Some(Unescape(h))
  {
    assert "a href="[1..] == " href=" == " " + "href" + "=";
  }

  lemma ReadUnlink(r: Reader, close: string)
    requires r.mode.InText? && close == "</a>"
    ensures Read(r, close) == r.(link := None)
  {
    ReadTag(r, "/a");
    assert close == "<" + "/a" + ">";
    WordsOfTags();
  }

  /** The opening of a tag up to the quote before its first value. */
  lemma ReadOpenQuote(r: Reader, open: string, u: string)
    requires r.mode.InText? && open == "<" + u + "\"" && '"' !in u && '>' !in u
    ensures Read(r, open) == r.(mode := InTag([u] + [""]))
  {
    ReadOpening(r, u);
    ReadConcat(r, "<" + u, "\"");
    ReadOne(r.(mode := InTag([u])), '"');
  }

  /** A value that is read in after its opening quote. */
  lemma FilledIn(r: Reader, before: string, parts: seq<string>, value: string)
    requires |parts| % 2 == 1 && '"' !in value
    requires Read(r, before) == r.(mode := InTag(parts + [""]))
    ensures Read(r, before + value) == r.(mode := InTag(parts + [value]))
  {
    ReadConcat(r, before, value);
    ReadInTag(r.(mode := InTag(parts + [""])), value);
    assert AddTo(parts + [""], value) == parts + [value] by { assert "" + value == value; }
  }

  lemma ReadQuoteThen(r: Reader, u: string)
    requires r.mode.InTag? && r.mode.parts != [] && '"' !in u && '>' !in u
    ensures Read(r, "\"" + u) == r.(mode := InTag(r.mode.parts + [u]))
  {
    var parts := r.mode.parts;
    ReadOne(r, '"');
    ReadConcat(r, "\"", u);
    ReadInTag(r.(mode := InTag(parts + [""])), u);
    assert AddTo(parts + [""], u) == parts + [u] by { assert "" + u == u; }
  }

  /** The quote behind the last value, and the end of the tag. */
  lemma ReadClosing(r: Reader, close: string, u: string)
    requires r.mode.InTag? && r.mode.parts != [] && |r.mode.parts| % 2 == 0 && '"' !in u && '>' !in u
    requires close == "\"" + u + ">"
    ensures Read(r, close) == Close(r.(mode := InTag(r.mode.parts + [u])), r.mode.parts + [u])
  {
    ReadQuoteThen(r, u);
    ReadConcat(r, "\"" + u, ">");
    ReadOne(r.(mode := InTag(r.mode.parts + [u])), '>');
  }

  /** From behind one value to before the next. */
  lemma ReadBetween(r: Reader, between: string, u: string)
    requires r.mode.InTag? && r.mode.parts != [] && '"' !in u && '>' !in u && between == "\"" + u + "\""
    ensures Read(r, between) == r.(mode := InTag(r.mode.parts + [u] + [""]))
  {
    ReadQuoteThen(r, u);
    ReadConcat(r, "\"" + u, "\"");
    ReadOne(r.(mode := InTag(r.mode.parts + [u])), '"');
  }

  lemma ReadPicture(r: Reader, src: string, alt: string)
    requires r.mode.InText?
    ensures Read(r, InlineImage(src, alt)) == Emit(r, Picture(AsAttribute(src), AsAttribute(alt)))
  {
    var h, v := EscapeText(src), EscapeText(alt);
    EscapeIsCharacterwise(src);
    EscapeIsCharacterwise(alt);
    EscapedHoldsNoQuote(src);
    EscapedHoldsNoQuote(alt);
    UnescapeEscaped(src);
    UnescapeEscaped(alt);
    PicturePieces();
    var a, b, c := "\" class=\"", "emoji", "\" alt=\"";
    ReadPicturePieces(r, "<img src=\"", h, a, b, c, v, "\" title=\"", "\"/>");
    Resplit("<img src=\"" + h, a, b, c, v, "\" title=\"", v, "\"/>");
  }

  lemma PicturePieces()
    ensures "\" class=\"emoji\" alt=\"" == "\" class=\"" + "emoji" + "\" alt=\""
  {
  }

  lemma ReadPicturePieces(r: Reader, open: string, h: string, a: string, b: string, c: string, v: string,
      title: string, close: string)
    requires r.mode.InText? && '"' !in h && '"' !in v
    requires open == "<img src=\"" && a == "\" class=\"" && b == "emoji" && c == "\" alt=\""
    requires title == "\" title=\"" && close == "\"/>"
    ensures Read(r, open + h + a + b + c + v + title + v + close) == Emit(r, Picture(Unescape(h), Unescape(v)))
  {
    var p2 := ["img src="] + [h] + [" class="] + [b];
    ReadPictureFront(r, open, h, a, b);
    var p4 := p2 + [" alt="] + [v] + [" title="] + [v];
    ReadPictureBack(r, open + h + a + b, p2, c, v, title);
    ReadConcat(r, open + h + a + b + c + v + title + v, close);
    EndPicture(r.(mode := InTag(p4)), h, v, close);
  }

  lemma ReadPictureFront(r: Reader, open: string, h: string, a: string, b: string)
    requires r.mode.InText? && '"' !in h && '"' !in b && open == "<img src=\"" && a == "\" class=\""
    ensures Read(r, open + h + a + b) == r.(mode := InTag(["img src="] + [h] + [" class="] + [b]))
  {
    ReadOpenQuote(r, open, "img src=");
    FilledIn(r, open, ["img src="], h);
    ValueThen(r, open + h, ["img src="] + [h], a, " class=", b);
  }

  lemma ReadPictureBack(r: Reader, before: string, parts: seq<string>, c: string, v: string, title: string)
    requires parts != [] && |parts| % 2 == 0 && '"' !in v && c == "\" alt=\"" && title == "\" title=\""
    requires Read(r, before) == r.(mode := InTag(parts))
    ensures Read(r, before + c + v + title + v) == r.(mode := InTag(parts + [" alt="] + [v] + [" title="] + [v]))
  {
    ValueThen(r, before, parts, c, " alt=", v);
    ValueThen(r, before + c + v, parts + [" alt="] + [v], title, " title=", v);
  }

  lemma EndPicture(r: Reader, h: string, v: string, close: string)
    requires close == "\"/>"
    requires r.mode == InTag(["img src="] + [h] + [" class="] + ["emoji"] + [" alt="] + [v] + [" title="] + [v])
    ensures Read(r, close) == Emit(r, Picture(Unescape(h), Unescape(v)))
  {
    var parts := r.mode.parts + ["/"];
    ReadClosing(r, close, "/");
    assert parts == ["img src=", h, " class=", "emoji", " alt=", v, " title=", v, "/"];
    AttributesOfPicture(h, v, parts);
    WordsOfTags();
  }

  /** One more attribute. */
  lemma ValueThen(r: Reader, before: string, parts: seq<string>, between: string, u: string, value: string)
    requires parts != [] && |parts| % 2 == 0 && '"' !in u && '>' !in u && '"' !in value
    requires between == "\"" + u + "\"" && Read(r, before) == r.(mode := InTag(parts))
    ensures Read(r, before + between + value) == r.(mode := InTag(parts + [u] + [value]))
  {
    ReadConcat(r, before, between);
    ReadBetween(r.(mode := InTag(parts)), between, u);
    FilledIn(r, before + between, parts + [u], value);
  }

  lemma Resplit(front: string, a: string, b: string, c: string, v: string, t: string, w: string, z: string)
    ensures front + a + b + c + v + t + w + z == front + (a + b + c) + v + t + w + z
  {
    assert front + (a + b + c) == front + a + b + c;
  }

  lemma AttributesOfPicture(h: string, v: string, parts: seq<string>)
    requires parts == ["img src=", h, " class=", "emoji", " alt=", v, " title=", v, "/"]
    ensures Attribute(parts, "src") == Some(Unescape(h)) && Attribute(parts, "alt") == Some(Unescape(v))
  {
    assert " " + "src" + "=" == " src=" == "img src="[3..];
    var alt := " " + "alt" + "=";
    assert alt == " alt=";
    assert "img src="[3..][1] != alt[1] && !EndsWith("img src=", alt);
    assert " class="[2..][0] != alt[0] && !EndsWith(" class=", alt);
    assert " alt="[0..] == " alt=" && EndsWith(" alt=", alt);
    var behind := parts[2..];
    assert behind[0] == " class=" && behind[2..][0] == " alt=" && behind[2..][1] == v;
    assert Attribute(parts, "alt") == Attribute(behind, "alt") == Attribute(behind[2..], "alt");
  }

  // ---------------------------------------------------------------- whole messages

  lemma ReadToken(r: Reader, t: Token, emoji: map<string, string>)
    requires r.mode.InText? && r.link.None?
    ensures Read(r, RenderToken(t, emoji)) == r.(seen := r.seen + TokenShown(t, emoji))
  {
    match RenderingOf(t, emoji)
    case Plain =>
      EscapeIsCharacterwise(t.value);
      ReadEscaped(r, t.value);
    case Linked(href) =>
      ReadAnchor(r, href, t.value);
      if t.kind != "mention" { WebUrlsHaveNoBreak(href); }
    case Inline(src) => ReadPicture(r, src, t.value);
  }

  lemma WebUrlsHaveNoBreak(url: string)
    requires IsWebUrl(url)
    ensures AsAttribute(url) == url
  {
    var k := if Starts(url, "https") then 5 else 4;
    forall i | 0 <= i < |url| ensures url[i] != '\n' {
      if k <= i < k + 3 {
        assert Lower(url[k..][i - k]) == "://"[i - k];
      } else if i < k {
        assert Lower(url[i]) == (if k == 5 then "https" else "http")[i];
      } else {
        assert !IsSpace(url[i]);
      }
    }
    AttributeKept(url);
  }

  lemma {:induction false} ReadTokens(r: Reader, tokens: seq<Token>, emoji: map<string, string>)
    requires r.mode.InText? && r.link.None?
    ensures Read(r, RenderTokens(tokens, emoji)) == r.(seen := r.seen + AllShown(tokens, emoji))
    decreases |tokens|
  {
    if tokens == [] {
      assert r.seen + AllShown(tokens, emoji) == r.seen;
    } else {
      var t := r.(seen := r.seen + TokenShown(tokens[0], emoji));
      ReadToken(r, tokens[0], emoji);
      ReadConcat(r, RenderToken(tokens[0], emoji), RenderTokens(tokens[1..], emoji));
      ReadTokens(t, tokens[1..], emoji);
      Reassociate(r.seen, TokenShown(tokens[0], emoji), AllShown(tokens[1..], emoji));
    }
  }

  lemma Reassociate(a: seq<Glyph>, b: seq<Glyph>, c: seq<Glyph>)
    ensures a + b + c == a + (b + c)
  {
  }

  lemma ReadParagraph(body: string, seen: seq<Glyph>)
    requires Read(Reader(InText, None, []), body) == Reader(InText, None, seen)
    ensures View("<p>" + body + "</p>") == seen
  {
    var r := Reader(InText, None, []);
    ReadTag(r, "p");
    assert "<" + "p" + ">" == "<p>" && "<" + "/p" + ">" == "</p>";
    WordsOfTags();
    ReadConcat(r, "<p>", body);
    ReadTag(Reader(InText, None, seen), "/p");
    ReadConcat(r, "<p>" + body, "</p>");
  }

  /** Main theorem: of any printed tokens the reader sees exactly this, in order. A url token with a web
      URL is its text under that URL, a mention its text under the njump.me link of its npub, an emoji
      with a web image the instance's own picture of it or else its text under that image; everything
      else is its bare text. Nothing else is linked or shown. */
  lemma {:induction false} ReaderSeesTheTokens(tokens: seq<Token>, emoji: map<string, string>)
    ensures View(TokensToOwncastHtml(tokens, emoji)) == AllShown(tokens, emoji)
  {
    ReadTokens(Reader(InText, None, []), tokens, emoji);
    assert [] + AllShown(tokens, emoji) == AllShown(tokens, emoji);
    ReadParagraph(RenderTokens(tokens, emoji), AllShown(tokens, emoji));
  }

  /** Of a text printed as such the reader sees just that text, without any link. */
  lemma {:induction false} ReaderSeesTheText(text: string)
    ensures View(TextToOwncastHtml(text)) == Letters(text, None)
  {
    EscapeIsCharacterwise(text);
    ReadEscaped(Reader(InText, None, []), text);
    assert [] + Letters(text, None) == Letters(text, None);
    ReadParagraph(EscapeText(text), Letters(text, None));
  }

  /** A web address, whatever case its scheme is written in. */
  predicate LeadsToTheWeb(link: string) {
    Starts(link, "http://") || Starts(link, "https://")
  }

  lemma WebUrlsLeadThere(url: string)
    requires IsWebUrl(url)
    ensures LeadsToTheWeb(url)
  {
    var k := if Starts(url, "https") then 5 else 4;
    var scheme := if k == 5 then "https://" else "http://";
    assert scheme == (if k == 5 then "https" else "http") + "://";
    forall i | 0 <= i < |scheme| ensures Lower(url[i]) == scheme[i] {
      if i >= k { assert Lower(url[k..][i - k]) == "://"[i - k]; }
    }
  }

  /** No link leads anywhere but to the web, whatever a token claims. */
  lemma {:induction false} LinksLeadToTheWeb(tokens: seq<Token>, emoji: map<string, string>, g: Glyph)
    requires g in AllShown(tokens, emoji) && g.Letter? && g.link.Some?
    ensures LeadsToTheWeb(g.link.value)
  {
    if g in TokenShown(tokens[0], emoji) {
      var t := tokens[0];
      assert g.link == LinkOf(t);
      if t.kind == "url" || t.kind == "emoji" {
        WebUrlsLeadThere(g.link.value);
      } else {
        NjumpLeadsThere(t.metadata.value.npub.value);
      }
    } else {
      LinksLeadToTheWeb(tokens[1..], emoji, g);
    }
  }

  lemma NjumpLeadsThere(npub: string)
    ensures LeadsToTheWeb(AsAttribute("https://njump.me/" + npub))
  {
    NjumpIsKept("https://njump.me/", npub);
    HostLeadsThere(AsAttribute(npub));
  }

  lemma NjumpIsKept(host: string, npub: string)
    requires '\n' !in host
    ensures AsAttribute(host + npub) == host + AsAttribute(npub)
  {
    EncodeConcat({'\n'}, host, npub);
    AttributeKept(host);
  }

  lemma HostLeadsThere(rest: string)
    ensures LeadsToTheWeb("https://njump.me/" + rest)
  {
    var host, scheme := "https://njump.me/", "https://";
    forall i | 0 <= i < |scheme| ensures Lower((host + rest)[i]) == scheme[i] { assert host[i] == scheme[i]; }
  }
}
