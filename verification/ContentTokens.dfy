/** Values shared by the content pipeline and the source-side renderers. */
module ContentTokens {
  import opened Options

  /** What a processor says about a match. `npub` is the bech32 form of `metadata.pubkey`, absent
      when there is no pubkey or when it cannot be encoded. */
  datatype Metadata = Metadata(
    kind: string,
    originalText: string,
    url: Option<string>,
    npub: Option<string>,
    imageUrl: Option<string>)

  /** One token of processed content. */
  datatype Token = Token(kind: string, value: string, metadata: Option<Metadata>)

  /** The display text of a token stream. */
  function Values(tokens: seq<Token>): string {
    if tokens == [] then "" else tokens[0].value + Values(tokens[1..])
  }

  lemma ValuesConcat(a: seq<Token>, b: seq<Token>)
    ensures Values(a + b) == Values(a) + Values(b)
  {
    if a == [] {
      assert a + b == b;
    } else {
      assert (a + b)[1..] == a[1..] + b;
      ValuesConcat(a[1..], b);
    }
  }
}
