/** Requests for replaceable events and the string keys they are batched and cached under. */
module LoaderKeys {
  import opened Options

  datatype Request = Request(pubkey: string, kind: nat, d: Option<string>)

  function Digit(n: nat): char requires n < 10 { ['0', '1', '2', '3', '4', '5', '6', '7', '8', '9'][n] }

  function Decimal(n: nat): string {
    if n < 10 then [Digit(n)] else Decimal(n / 10) + [Digit(n % 10)]
  }

  /** Number() of a string of digits. */
  function ParseDecimal(s: string): nat {
    if s == "" then 0
    else 10 * ParseDecimal(s[..|s| - 1]) + (if '0' <= s[|s| - 1] <= '9' then s[|s| - 1] as nat - '0' as nat else 0)
  }

  function ToKey(r: Request): string {
    Decimal(r.kind) + ":" + r.pubkey + ":" + (if r.d.Some? then r.d.value else "")
  }

  function SplitColon(s: string): (parts: seq<string>)
    ensures parts != []
  {
    if s == "" then [""]
    else
      var rest := SplitColon(s[1..]);
      if s[0] == ':' then [""] + rest else [[s[0]] + rest[0]] + rest[1..]
  }

  function JoinColon(parts: seq<string>): string {
    if parts == [] then "" else if |parts| == 1 then parts[0] else parts[0] + ":" + JoinColon(parts[1..])
  }

  /** d tags may themselves hold colons: only the first two segments are ours. */
  function ParseKey(key: string): Request {
    var parts := SplitColon(key);
    var d := if |parts| > 2 then JoinColon(parts[2..]) else "";
    Request(if |parts| > 1 then parts[1] else "", ParseDecimal(parts[0]), if d == "" then None else Some(d))
  }

  /** An empty d is no d. */
  function Normal(r: Request): Request { if r.d == Some("") then r.(d := None) else r }

  lemma {:induction false} DecimalRoundTrip(n: nat)
    ensures ParseDecimal(Decimal(n)) == n && ':' !in Decimal(n) && Decimal(n) != ""
  {
    if n < 10 {
      assert [Digit(n)][..0] == "";
    } else {
      DecimalRoundTrip(n / 10);
      assert Decimal(n)[..|Decimal(n)| - 1] == Decimal(n / 10);
    }
  }

  lemma {:induction false} SplitFirst(a: string, b: string)
    requires ':' !in a
    ensures SplitColon(a + ":" + b) == [a] + SplitColon(b)
  {
    var s := a + ":" + b;
    if a == "" {
      assert s[1..] == b;
    } else {
      assert s[1..] == a[1..] + ":" + b;
      SplitFirst(a[1..], b);
      assert [a[0]] + a[1..] == a;
    }
  }

  lemma {:induction false} JoinSplit(s: string)
    ensures JoinColon(SplitColon(s)) == s
  {
    if s != "" {
      JoinSplit(s[1..]);
      var rest := SplitColon(s[1..]);
      if s[0] == ':' {
        assert ([""] + rest)[1..] == rest;
      } else {
        JoinHead(s[0], rest);
      }
    }
  }

  lemma JoinHead(c: char, rest: seq<string>)
    requires rest != []
    ensures JoinColon([[c] + rest[0]] + rest[1..]) == [c] + JoinColon(rest)
  {
    var parts := [[c] + rest[0]] + rest[1..];
    assert parts[1..] == rest[1..];
    if |rest| > 1 {
      var tail := ":" + JoinColon(rest[1..]);
      assert [c] + rest[0] + tail == [c] + (rest[0] + tail);
      assert [c] + rest[0] + ":" + JoinColon(rest[1..]) == [c] + rest[0] + tail;
      assert rest[0] + ":" + JoinColon(rest[1..]) == rest[0] + tail;
    }
  }

  /** Parsing a key gives the request back, for every kind, every d and any pubkey without colons. */
  lemma {:induction false} KeyRoundTrip(r: Request)
    requires ':' !in r.pubkey
    ensures ParseKey(ToKey(r)) == Normal(r)
  {
    var d := if r.d.Some? then r.d.value else "";
    DecimalRoundTrip(r.kind);
    SplitTwice(Decimal(r.kind), r.pubkey, d);
    JoinSplit(d);
  }

  lemma SplitTwice(kind: string, pubkey: string, d: string)
    requires ':' !in kind && ':' !in pubkey
    ensures var parts := SplitColon(kind + ":" + pubkey + ":" + d);
      |parts| > 2 && parts[0] == kind && parts[1] == pubkey && parts[2..] == SplitColon(d)
  {
    GroupTail(kind, ":", pubkey, ":", d);
    SplitFirst(kind, pubkey + ":" + d);
    SplitFirst(pubkey, d);
    AfterTwo(kind, pubkey, SplitColon(d));
  }

  lemma GroupTail(a: string, b: string, c: string, d: string, e: string)
    ensures a + b + c + d + e == a + b + (c + d + e)
  {
  }

  lemma AfterTwo(a: string, b: string, rest: seq<string>)
    ensures ([a] + ([b] + rest))[2..] == rest
  {
  }

  /** Keys are coordinates: two requests share a key exactly when they ask for the same thing. */
  lemma KeysAreCoordinates(r: Request, s: Request)
    requires ':' !in r.pubkey && ':' !in s.pubkey
    ensures ToKey(r) == ToKey(s) <==> Normal(r) == Normal(s)
  {
    KeyRoundTrip(r);
    KeyRoundTrip(s);
  }
}
