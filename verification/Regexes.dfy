/** The regular expressions of the source's HTML parser, and how ECMAScript matches them (section 22.2.2 of
    ECMA-262): one fixed word or repeated class of characters after another, each repetition taking as much
    as it can and giving back one character at a time while the rest does not match. */
module Regexes {
  import opened OwncastHtml
  import opened Options

  datatype Regex =
    | End
    | AtEnd                                                     // $
    | Word(text: string, next: Regex)                           // in lower case; matched in either
    | Many(class_: char -> bool, least: nat, most: Option<nat>, next: Regex)

  /** How many characters each part of it took. */
  datatype Taken = Done | Took(n: nat, rest: Taken)

  function RunLength(class_: char -> bool, s: string): (n: nat)
    ensures n <= |s| && (forall i :: 0 <= i < n ==> class_(s[i])) && (n < |s| ==> !class_(s[n]))
  {
    if s != "" && class_(s[0]) then 1 + RunLength(class_, s[1..]) else 0
  }

  function Longest(class_: char -> bool, most: Option<nat>, s: string): (n: nat)
    ensures n <= |s|
  {
    var run := RunLength(class_, s);
    if most.Some? && most.value < run then most.value else run
  }

  /** A match at the front of a text. */
  function Exec(re: Regex, s: string): Option<Taken>
    decreases re, |s| + 2
  {
    match re
    case End => Some(Done)
    case AtEnd => if s == "" then Some(Done) else None
    case Word(w, next) => if Starts(s, w) then Then(|w|, Exec(next, s[|w|..])) else None
    case Many(class_, _, most, _) => Backtrack(re, s, Longest(class_, most, s))
  }

  /** The repetition takes n characters, or failing that fewer. */
  function Backtrack(re: Regex, s: string, n: nat): Option<Taken>
    requires re.Many? && n <= |s|
    decreases re, n + 1
  {
    if n < re.least then None
    else if Exec(re.next, s[n..]).Some? then Then(n, Exec(re.next, s[n..]))
    else if n == 0 then None
    else Backtrack(re, s, n - 1)
  }

  function Then(n: nat, rest: Option<Taken>): Option<Taken> {
    if rest.Some? then Some(Took(n, rest.value)) else None
  }

  function Total(t: Taken): nat { if t.Done? then 0 else t.n + Total(t.rest) }

  /** What the k-th part took. */
  function Group(s: string, t: Taken, k: nat): string {
    if t.Done? || t.n > |s| then "" else if k == 0 then s[..t.n] else Group(s[t.n..], t.rest, k - 1)
  }

  // ---------------------------------------------------------------- the source's own

  predicate IsSlash(c: char) { c == '/' }
  predicate NotGt(c: char) { c != '>' }
  predicate NotQuote(c: char) { c != '"' }
  predicate IsDecimal(c: char) { '0' <= c <= '9' }

  function ToGt(least: nat): Regex { Many(NotGt, least, None, Word(">", End)) }

  function AltOnwards(): Regex { Word("alt=\"", Many(NotQuote, 0, None, Word("\"", ToGt(0)))) }

  function RegexOf(rule: Rule): Regex
    requires !rule.Literal?
  {
    match rule
    case LineBreak => Word("<br", Many(IsSpace, 0, None, Many(IsSlash, 0, Some(1), Word(">", End))))
    case ParagraphGap => Word("</p>", Many(IsSpace, 0, None, Word("<p", ToGt(0))))
    case Image => Word("<img", Many(NotGt, 0, None, AltOnwards()))
    case Tag => Word("<", ToGt(1))
    case NumericRef => Word("&#", Many(IsDecimal, 1, None, Word(";", End)))
  }

  /** What a match is replaced by: the alternative text of an image, the character of a code point, or the
      same for all. */
  function ReplacedBy(rule: Rule, s: string, t: Taken): string
    requires !rule.Literal?
  {
    match rule
    case LineBreak => "\n"
    case ParagraphGap => "\n"
    case Image => Group(s, t, 3)
    case Tag => ""
    case NumericRef => var d := Group(s, t, 1); FromCodePoint(Number(d[..Digits(d)]))
  }

  ghost predicate MatchesAsExec(rule: Rule, s: string)
    requires !rule.Literal?
  {
    var t := Exec(RegexOf(rule), s);
    MatchAt(rule, s) == if t.None? then NoMatch else Match(Total(t.value), ReplacedBy(rule, s, t.value))
  }

  // ---------------------------------------------------------------- matching without backtracking

  /** The regular expression never matches where the class goes on. */
  ghost predicate Refuses(re: Regex, class_: char -> bool) {
    forall s: string :: s != "" && class_(s[0]) ==> Exec(re, s).None?
  }

  lemma {:induction false} NothingGivenBack(re: Regex, s: string, n: nat)
    requires re.Many? && Refuses(re.next, re.class_)
    requires n <= |s| && Exec(re.next, s[n..]).None? && forall i :: 0 <= i < n ==> re.class_(s[i])
    ensures Backtrack(re, s, n).None?
  {
    if n > 0 {
      assert s[n - 1..][0] == s[n - 1];
      NothingGivenBack(re, s, n - 1);
    }
  }

  /** Where the rest refuses what is repeated, the repetition takes all it can or the match fails. */
  lemma TakesAllItCan(re: Regex, s: string)
    requires re.Many? && Refuses(re.next, re.class_)
    ensures var n := Longest(re.class_, re.most, s);
      Exec(re, s) == if n < re.least then None else Then(n, Exec(re.next, s[n..]))
  {
    var n := Longest(re.class_, re.most, s);
    if Exec(re.next, s[n..]).None? { NothingGivenBack(re, s, n); }
  }

  lemma WordRefuses(w: string, next: Regex, class_: char -> bool)
    requires w != "" && forall c :: class_(c) ==> Lower(c) != w[0]
    ensures Refuses(Word(w, next), class_)
  {
    forall s: string | s != "" && class_(s[0]) ensures Exec(Word(w, next), s).None? {
      assert Lower(s[0]) != w[0];
    }
  }

  lemma {:induction false} FindIsRun(s: string, c: char, class_: char -> bool, from: nat)
    requires from <= |s| && forall x :: class_(x) <==> x != c
    ensures Find(s, c, from) == from + RunLength(class_, s[from..])
    decreases |s| - from
  {
    if from < |s| && s[from] != c {
      FindIsRun(s, c, class_, from + 1);
      assert s[from..][1..] == s[from + 1..];
    }
  }

  lemma {:induction false} SpaceRunIsRun(s: string)
    ensures SpaceRun(s) == RunLength(IsSpace, s)
  {
    if s != "" && IsSpace(s[0]) { SpaceRunIsRun(s[1..]); }
  }

  lemma {:induction false} DigitsIsRun(s: string)
    ensures Digits(s) == RunLength(IsDecimal, s)
  {
    if s != "" && '0' <= s[0] <= '9' { DigitsIsRun(s[1..]); }
  }

  lemma StartsWithOne(s: string, w: string, c: char)
    requires w == [c] && forall x: char :: Lower(x) == c <==> x == c
    ensures Starts(s, w) <==> s != "" && s[0] == c
  {
    assert w[0] == c;
  }

  lemma NextOne(t: string, w: string, c: char, next: Regex)
    requires w == [c] && forall x: char :: Lower(x) == c <==> x == c
    ensures Exec(Word(w, next), t) == if t != "" && t[0] == c then Then(1, Exec(next, t[1..])) else None
  {
    StartsWithOne(t, w, c);
  }

  /** Up to the next occurrence of a character, which has to be there. */
  lemma UpTo(re: Regex, c: char, w: string, s: string)
    requires re.Many? && re.most.None? && re.next.Word? && re.next.text == w == [c]
    requires forall x :: re.class_(x) <==> x != c
    requires forall x: char :: Lower(x) == c <==> x == c
    ensures var n := RunLength(re.class_, s);
      Exec(re, s)
      == if n < re.least || n == |s| then None else Then(n, Then(1, Exec(re.next.next, s[n + 1..])))
  {
    var n := RunLength(re.class_, s);
    WordRefuses(w, re.next.next, re.class_);
    TakesAllItCan(re, s);
    NextOne(s[n..], w, c, re.next.next);
    if n < |s| {
      assert s[n..][1..] == s[n + 1..] && s[n..][0] == s[n];
    }
  }

  // ---------------------------------------------------------------- rule by rule

  /** The tail of a tag, from any place on. */
  lemma ToGtExec(least: nat, s: string, from: nat)
    requires from <= |s| && least <= 1
    ensures var g := Find(s, '>', from);
      Exec(ToGt(least), s[from..])
      == if g == |s| || g < from + least then None else Some(Took(g - from, Took(1, Done)))
  {
    UpTo(ToGt(least), '>', ">", s[from..]);
    FindIsRun(s, '>', NotGt, from);
  }

  lemma Totals(a: nat, b: nat, c: nat, rest: Taken)
    ensures Total(Took(a, Took(b, Took(c, rest)))) == a + b + c + Total(rest)
  {
    assert Total(Took(c, rest)) == c + Total(rest);
    assert Total(Took(b, Took(c, rest))) == b + Total(Took(c, rest));
  }

  lemma TagExec(s: string, g: nat)
    requires s != "" && s[0] == '<' && g == Find(s, '>', 1)
    ensures Exec(RegexOf(Tag), s) == if g == |s| || g < 2 then None else Some(Took(1, Took(g - 1, Took(1, Done))))
  {
    StartsWithOne(s, "<", '<');
    ToGtExec(1, s, 1);
  }

  lemma TagIsRegex(s: string)
    ensures MatchesAsExec(Tag, s)
  {
    StartsWithOne(s, "<", '<');
    if s != "" && s[0] == '<' {
      var g := Find(s, '>', 1);
      TagExec(s, g);
      Totals(1, g - 1, 1, Done);
      if 1 < |s| && s[1] != '>' {
        assert g == Find(s, '>', 2) && g >= 2;
        assert MatchAt(Tag, s) == if g < |s| then Match(g + 1, "") else NoMatch;
      } else {
        assert g == 1 && MatchAt(Tag, s).NoMatch?;
      }
    }
  }

  lemma FoldsNothing(s: string, w: string)
    requires forall c, x: char :: c in w && Lower(x) == c ==> x == c
    requires forall c :: c in w ==> Lower(c) == c
    ensures Starts(s, w) <==> w <= s
  {
    if w <= s {
      forall i | 0 <= i < |w| ensures Lower(s[i]) == w[i] { assert s[i] == w[i] && w[i] in w; }
    }
    if Starts(s, w) {
      forall i | 0 <= i < |w| ensures s[i] == w[i] { assert w[i] in w && Lower(s[i]) == w[i]; }
    }
  }

  lemma DigitsExec(t: string, n: nat)
    requires n == Digits(t)
    ensures Exec(Many(IsDecimal, 1, None, Word(";", End)), t)
         == if 0 < n < |t| && t[n] == ';' then Some(Took(n, Took(1, Done))) else None
  {
    WordRefuses(";", End, IsDecimal);
    TakesAllItCan(Many(IsDecimal, 1, None, Word(";", End)), t);
    DigitsIsRun(t);
    StartsWithOne(t[n..], ";", ';');
    assert n < |t| ==> t[n..][0] == t[n];
  }

  lemma NumberExec(s: string, n: nat)
    requires "&#" <= s && n == Digits(s[2..])
    ensures Exec(RegexOf(NumericRef), s)
         == if 0 < n && 2 + n < |s| && s[2 + n] == ';' then Some(Took(2, Took(n, Took(1, Done)))) else None
  {
    FoldsNothing(s, "&#");
    DigitsExec(s[2..], n);
    assert 2 + n < |s| ==> s[2..][n] == s[2 + n];
  }

  lemma {:induction false} AllDigits(t: string)
    requires forall i :: 0 <= i < |t| ==> '0' <= t[i] <= '9'
    ensures Digits(t) == |t|
  {
    if t != "" { AllDigits(t[1..]); }
  }

  lemma NumberIsRegex(s: string)
    ensures MatchesAsExec(NumericRef, s)
  {
    FoldsNothing(s, "&#");
    if "&#" <= s {
      var n := Digits(s[2..]);
      NumberExec(s, n);
      var t := s[2..][..n];
      AllDigits(t);
      assert t[..n] == t;
      Totals(2, n, 1, Done);
      if 2 + n < |s| { assert Group(s, Took(2, Took(n, Took(1, Done))), 1) == t; }
    }
  }

  lemma SlashExec(t: string)
    ensures Exec(Many(IsSlash, 0, Some(1), Word(">", End)), t)
         == if |t| > 1 && t[0] == '/' && t[1] == '>' then Some(Took(1, Took(1, Done)))
            else if t != "" && t[0] == '>' then Some(Took(0, Took(1, Done)))
            else None
  {
    WordRefuses(">", End, IsSlash);
    var n := Longest(IsSlash, Some(1), t);
    assert t != "" && t[0] == '/' ==> n == 1;
    TakesAllItCan(Many(IsSlash, 0, Some(1), Word(">", End)), t);
    assert n < |t| ==> t[n..][0] == t[n];
  }

  lemma BreakExec(s: string, n: nat)
    requires Starts(s, "<br") && n == SpaceRun(s[3..])
    ensures Exec(RegexOf(LineBreak), s)
         == if 4 + n < |s| && s[3 + n] == '/' && s[4 + n] == '>' then Some(Took(3, Took(n, Took(1, Took(1, Done)))))
            else if 3 + n < |s| && s[3 + n] == '>' then Some(Took(3, Took(n, Took(0, Took(1, Done)))))
            else None
  {
    var re := RegexOf(LineBreak).next;
    forall t: string | t != "" && IsSpace(t[0]) ensures Exec(re.next, t).None? { SlashExec(t); }
    TakesAllItCan(re, s[3..]);
    SpaceRunIsRun(s[3..]);
    assert s[3..][n..] == s[3 + n..];
    SlashExec(s[3 + n..]);
  }

  lemma BreakIsRegex(s: string)
    ensures MatchesAsExec(LineBreak, s)
  {
    if Starts(s, "<br") {
      var n := SpaceRun(s[3..]);
      BreakExec(s, n);
      Totals(3, n, 1, Took(1, Done));
      Totals(3, n, 0, Took(1, Done));
    }
  }

  lemma GapExec(s: string, k: nat)
    requires Starts(s, "</p>") && k == 4 + SpaceRun(s[4..])
    ensures Exec(RegexOf(ParagraphGap), s) == Then(4, Then(k - 4, Exec(Word("<p", ToGt(0)), s[k..])))
  {
    var re := RegexOf(ParagraphGap).next;
    WordRefuses("<p", ToGt(0), IsSpace);
    TakesAllItCan(re, s[4..]);
    SpaceRunIsRun(s[4..]);
    assert s[4..][k - 4..] == s[k..];
  }

  lemma OpeningExec(s: string, k: nat)
    requires k <= |s|
    ensures Exec(Word("<p", ToGt(0)), s[k..])
         == if !Starts(s[k..], "<p") || Find(s, '>', k + 2) == |s| then None
            else Some(Took(2, Took(Find(s, '>', k + 2) - (k + 2), Took(1, Done))))
  {
    if Starts(s[k..], "<p") {
      assert s[k..][2..] == s[k + 2..];
      ToGtExec(0, s, k + 2);
    }
  }

  lemma GapIsRegex(s: string)
    ensures MatchesAsExec(ParagraphGap, s)
  {
    if Starts(s, "</p>") {
      var k := 4 + SpaceRun(s[4..]);
      GapExec(s, k);
      OpeningExec(s, k);
      if Starts(s[k..], "<p") {
        var g := Find(s, '>', k + 2) - (k + 2);
        Totals(4, k - 4, 2, Took(g, Took(1, Done)));
      }
    }
  }

  /** From the value of an alternative text on. */
  lemma ValueExec(s: string, v: nat, q: nat)
    requires v <= |s| && q == Find(s, '"', v)
    ensures Exec(AltOnwards().next, s[v..])
         == if q == |s| then None else Then(q - v, Then(1, Exec(ToGt(0), s[q + 1..])))
  {
    UpTo(AltOnwards().next, '"', "\"", s[v..]);
    FindIsRun(s, '"', NotQuote, v);
    if q < |s| { assert s[v..][q - v + 1..] == s[q + 1..]; }
  }

  lemma AltBegins(s: string, k: nat)
    requires k <= |s| && Starts(s[k..], "alt=\"")
    ensures k + 5 <= |s| && Exec(AltOnwards(), s[k..]) == Then(5, Exec(AltOnwards().next, s[k + 5..]))
    ensures AltAt(s, k) == AltFrom(s, k, Find(s, '"', k + 5))
  {
    assert s[k..][5..] == s[k + 5..];
  }

  function AltFrom(s: string, k: nat, q: nat): Match
    requires k + 5 <= q <= |s|
  {
    if q < |s| then UntilGt(s, q + 1, s[k + 5..q]) else NoMatch
  }

  ghost predicate AltIsExec(s: string, k: nat, m: Match, t: Option<Taken>)
    requires k <= |s|
  {
    m == if t.None? then NoMatch else Match(k + Total(t.value), Group(s[k..], t.value, 1))
  }

  lemma AltTail(s: string, k: nat, q: nat, g: nat, tail: Option<Taken>)
    requires k + 5 <= q < |s| && g == Find(s, '>', q + 1)
    requires tail == if g == |s| then None else Some(Took(g - (q + 1), Took(1, Done)))
    ensures AltIsExec(s, k, AltFrom(s, k, q), Then(5, Then(q - (k + 5), Then(1, tail))))
  {
    if g < |s| { AltTotal(s, k, q, g); }
  }

  lemma AltHit(s: string, k: nat, q: nat, found: Option<Taken>)
    requires k + 5 <= |s| && q == Find(s, '"', k + 5)
    requires found == if q == |s| then None else Then(q - (k + 5), Then(1, Exec(ToGt(0), s[q + 1..])))
    ensures AltIsExec(s, k, AltFrom(s, k, q), Then(5, found))
  {
    if q < |s| {
      ToGtExec(0, s, q + 1);
      AltTail(s, k, q, Find(s, '>', q + 1), Exec(ToGt(0), s[q + 1..]));
    }
  }

  lemma AltMisses(s: string, k: nat)
    requires k <= |s| && !Starts(s[k..], "alt=\"")
    ensures AltAt(s, k).NoMatch? && Exec(AltOnwards(), s[k..]).None?
  {
  }

  /** From an alternative text on. */
  lemma AltExec(s: string, k: nat)
    requires k <= |s|
    ensures AltIsExec(s, k, AltAt(s, k), Exec(AltOnwards(), s[k..]))
  {
    if Starts(s[k..], "alt=\"") {
      AltBegins(s, k);
      AltThere(s, k, Find(s, '"', k + 5), AltAt(s, k), Exec(AltOnwards(), s[k..]));
    } else {
      AltMisses(s, k);
    }
  }

  lemma AltThere(s: string, k: nat, q: nat, m: Match, t: Option<Taken>)
    requires k + 5 <= |s| && q == Find(s, '"', k + 5)
    requires m == AltFrom(s, k, q) && t == Then(5, Exec(AltOnwards().next, s[k + 5..]))
    ensures AltIsExec(s, k, m, t)
  {
    ValueExec(s, k + 5, q);
    AltHit(s, k, q, Exec(AltOnwards().next, s[k + 5..]));
  }

  lemma AltTotal(s: string, k: nat, q: nat, g: nat)
    requires k + 5 <= q < g < |s|
    ensures var t := Took(5, Took(q - (k + 5), Took(1, Took(g - (q + 1), Took(1, Done)))));
      Total(t) == g + 1 - k && Group(s[k..], t, 1) == s[k + 5..q]
  {
    Totals(5, q - (k + 5), 1, Took(g - (q + 1), Took(1, Done)));
    assert s[k..][5..] == s[k + 5..] && s[k + 5..][..q - (k + 5)] == s[k + 5..q];
  }

  lemma {:induction false} ImageTail(s: string, k: nat)
    requires 4 <= |s| && k <= |s| - 4
    ensures var t := Backtrack(Many(NotGt, 0, None, AltOnwards()), s[4..], k);
      LastAlt(s, 4 + k) == if t.None? then NoMatch else Match(4 + Total(t.value), Group(s[4..], t.value, 2))
  {
    AltExec(s, 4 + k);
    assert s[4..][k..] == s[4 + k..];
    if AltAt(s, 4 + k).NoMatch? {
      if k > 0 { ImageTail(s, k - 1); } else { assert LastAlt(s, 3).NoMatch?; }
    }
  }

  lemma ImageIsRegex(s: string)
    ensures MatchesAsExec(Image, s)
  {
    if Starts(s, "<img") {
      FindIsRun(s, '>', NotGt, 4);
      ImageTail(s, RunLength(NotGt, s[4..]));
    }
  }

  /** Main theorem: each rule of the parser matches what the regular expression of the source matches, of the
      same length and replaced by the same text, backtracking and all. */
  lemma RulesAreRegexes(rule: Rule, s: string)
    requires !rule.Literal?
    ensures MatchesAsExec(rule, s)
  {
    match rule {
      case LineBreak => BreakIsRegex(s);
      case ParagraphGap => GapIsRegex(s);
      case Image => ImageIsRegex(s);
      case Tag => TagIsRegex(s);
      case NumericRef => NumberIsRegex(s);
    }
  }

  // ---------------------------------------------------------------- what may be a link

  predicate IsS(c: char) { Lower(c) == 's' }
  predicate NotSpace(c: char) { !IsSpace(c) }

  /** \S+$ */
  function NoSpaceToEnd(): Regex { Many(NotSpace, 1, None, AtEnd) }

  /** ^https?:\/\/\S+$ */
  function WebUrl(): Regex { Word("http", Many(IsS, 0, Some(1), Word("://", NoSpaceToEnd()))) }

  predicate AllNotSpace(s: string) { forall i :: 0 <= i < |s| ==> !IsSpace(s[i]) }

  lemma NoSpaceExec(s: string)
    ensures Exec(NoSpaceToEnd(), s).Some? <==> s != "" && AllNotSpace(s)
  {
    forall t: string | t != "" ensures Exec(AtEnd, t).None? {}
    TakesAllItCan(NoSpaceToEnd(), s);
    var n := RunLength(NotSpace, s);
    if n < |s| { assert s[n..] != ""; }
    if AllNotSpace(s) { assert n == |s|; }
  }

  lemma AuthorityExec(s: string)
    ensures Exec(Word("://", NoSpaceToEnd()), s).Some? <==> Starts(s, "://") && |s| > 3 && AllNotSpace(s[3..])
  {
    if Starts(s, "://") { NoSpaceExec(s[3..]); }
  }

  lemma SchemeExec(t: string, n: nat)
    requires n == if t != "" && IsS(t[0]) then 1 else 0
    ensures Exec(WebUrl().next, t) == Then(n, Exec(Word("://", NoSpaceToEnd()), t[n..]))
  {
    WordRefuses("://", NoSpaceToEnd(), IsS);
    assert Longest(IsS, Some(1), t) == n;
    TakesAllItCan(WebUrl().next, t);
  }

  lemma SecureStarts(url: string)
    ensures Starts(url, "https") <==> Starts(url, "http") && |url| > 4 && IsS(url[4])
  {
    assert "https"[..4] == "http" && "https"[4] == 's';
    if Starts(url, "http") && |url| > 4 && IsS(url[4]) {
      forall i | 0 <= i < 5 ensures Lower(url[i]) == "https"[i] {
        if i < 4 { assert "https"[i] == "https"[..4][i]; }
      }
    }
    if Starts(url, "https") {
      forall i | 0 <= i < 4 ensures Lower(url[i]) == "http"[i] { assert "https"[i] == "https"[..4][i]; }
    }
  }

  /** The test for what may become a link is the regular expression of the source. */
  lemma WebUrlIsRegex(url: string)
    ensures IsWebUrl(url) <==> Exec(WebUrl(), url).Some?
  {
    SecureStarts(url);
    if Starts(url, "http") {
      var n := if |url| > 4 && IsS(url[4]) then 1 else 0;
      SchemeExec(url[4..], n);
      assert url[4..][n..] == url[4 + n..];
      AuthorityExec(url[4 + n..]);
      if Starts(url[4 + n..], "://") { WebTail(url, 4 + n); }
    }
  }

  lemma WebTail(url: string, k: nat)
    requires k <= |url| && Starts(url[k..], "://")
    ensures |url[k..]| > 3 && AllNotSpace(url[k..][3..])
       <==> k + 3 < |url| && forall i :: k + 3 <= i < |url| ==> !IsSpace(url[i])
  {
    var tail := url[k..][3..];
    assert tail == url[k + 3..];
    if AllNotSpace(tail) {
      forall i | k + 3 <= i < |url| ensures !IsSpace(url[i]) { assert tail[i - (k + 3)] == url[i]; }
    }
  }
}
