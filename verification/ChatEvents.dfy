/** Nostr chat events as the bridge looks at them, and the filters it puts them through. */
module ChatEvents {
  import opened Options

  const CHAT_MESSAGE := 1311
  const ROOM_PRESENCE := 10312

  datatype ChatEvent = ChatEvent(kind: nat, pubkey: string, content: string, tags: seq<seq<string>>)

  /** The value of the first `a` tag, if it has one. */
  function FirstATag(tags: seq<seq<string>>): Option<string> {
    if tags == [] then None
    else if tags[0] != [] && tags[0][0] == "a" then (if |tags[0]| > 1 then Some(tags[0][1]) else None)
    else FirstATag(tags[1..])
  }

  /** It is the value of the first tag named `a`, which later ones cannot replace. */
  lemma {:induction false} FirstATagIsFirst(tags: seq<seq<string>>, value: string)
    ensures FirstATag(tags) == Some(value)
       <==> exists n :: 0 <= n < |tags| && LeadsTags(tags, n) && |tags[n]| > 1 && tags[n][1] == value
  {
    if tags != [] {
      FirstATagIsFirst(tags[1..], value);
      if tags[0] == [] || tags[0][0] != "a" {
        forall n | 0 < n < |tags| ensures LeadsTags(tags, n) <==> LeadsTags(tags[1..], n - 1) {
          assert tags[1..][n - 1] == tags[n] && forall m :: 0 < m < n ==> tags[1..][m - 1] == tags[m];
          assert forall m :: 0 <= m < n - 1 ==> tags[1..][m] == tags[m + 1];
        }
        if n :| 0 < n < |tags| && LeadsTags(tags, n) && |tags[n]| > 1 && tags[n][1] == value {
          assert LeadsTags(tags[1..], n - 1);
        }
      }
    }
  }

  /** The n-th tag is the first that is named `a`. */
  ghost predicate LeadsTags(tags: seq<seq<string>>, n: nat)
    requires n < |tags|
  {
    tags[n] != [] && tags[n][0] == "a" && forall m :: 0 <= m < n ==> tags[m] == [] || tags[m][0] != "a"
  }

  predicate HasClientTag(tags: seq<seq<string>>, client: string) {
    exists t :: t in tags && |t| > 1 && t[0] == "client" && t[1] == client
  }

  /** What handleNostrEvent lets through to the room of an `a` tag: chat messages that carry neither
      the bridge's client tag (layer 1) nor the key of a chatter it made up (layer 2). */
  predicate PassesFilters(bridgeName: string, bridged: set<string>, aTag: string, e: ChatEvent) {
    && e.kind == CHAT_MESSAGE
    && !HasClientTag(e.tags, bridgeName)
    && e.pubkey !in bridged
    && FirstATag(e.tags) == Some(aTag) && aTag != ""
  }
}
