/** The Discord client holder (packages/discord/client.ts): intent resolution, the
    once-only construction of the client, the guard on the `Client` proxy and
    `sendToChannel`. The gateway connection itself is not modelled; a constructed client
    is the configuration it was built from. */
module DiscordClient {
  import opened Opt

  // ---------------------------------------------------------------------------
  // Intents

  /** discord.js's gateway intent bits used by the intent groups. */
  const Guilds: int := 1
  const GuildMembers: int := 2
  const GuildVoiceStates: int := 128
  const GuildMessages: int := 512
  const DirectMessages: int := 4096
  const MessageContent: int := 32768

  /** The `Intents` groups of packages/discord/types.ts. */
  const IntentGroups: map<string, seq<int>> := map[
    "Guilds" := [Guilds], "GuildMessages" := [GuildMessages], "MessageContent" := [MessageContent],
    "GuildMembers" := [GuildMembers], "GuildVoiceStates" := [GuildVoiceStates],
    "DirectMessages" := [DirectMessages],
    "Messages" := [GuildMessages, DirectMessages, MessageContent],
    "All" := [Guilds, GuildMessages, MessageContent, GuildMembers, GuildVoiceStates, DirectMessages]]

  /** An entry of `config.intents`: a group name, a bit, or a value of another type. */
  datatype IntentRef = Group(name: string) | Bit(bit: int) | OtherValue

  /** The bits one entry contributes: a known group's list, the number itself, or nothing. */
  function BitsOf(intent: IntentRef): seq<int>
  {
    match intent
    case Group(name) => if name in IntentGroups then IntentGroups[name] else []
    case Bit(b) => [b]
    case OtherValue => []
  }

  /** `bits` after the collecting loop: the entries' bits in order. */
  function Expand(intents: seq<IntentRef>): (bits: seq<int>)
  {
    if |intents| == 0 then [] else Expand(intents[..|intents| - 1]) + BitsOf(intents[|intents| - 1])
  }

  /** `Array.from(new Set(bits))`: each value once, at its first occurrence. */
  function Dedupe(bits: seq<int>): (r: seq<int>)
    ensures forall x :: x in r <==> x in bits
  {
    if |bits| == 0 then []
    else
      var d := Dedupe(bits[..|bits| - 1]);
      assert forall x :: x in bits <==> x in bits[..|bits| - 1] || x == bits[|bits| - 1] by {
        assert bits == bits[..|bits| - 1] + [bits[|bits| - 1]];
      }
      if bits[|bits| - 1] in d then d else d + [bits[|bits| - 1]]
  }

  predicate NoDuplicates(s: seq<int>)
  {
    forall i, j :: 0 <= i < j < |s| ==> s[i] != s[j]
  }

  /** The index of the first occurrence of `x`. */
  function FirstIndex(s: seq<int>, x: int): (k: nat)
    requires x in s
    ensures k < |s| && s[k] == x && x !in s[..k]
  {
    if s[0] == x then 0
    else
      assert x in s[1..];
      var k := FirstIndex(s[1..], x);
      assert s[..k + 1] == [s[0]] + s[1..][..k];
      k + 1
  }

  /** The first occurrence is the index holding `x` with no `x` before it. */
  lemma {:induction false} FirstIndexIs(s: seq<int>, x: int, k: nat)
    requires k < |s| && s[k] == x && x !in s[..k]
    ensures FirstIndex(s, x) == k
  {
    if k > 0 {
      assert s[0] in s[..k];
      assert s[1..][..k - 1] == s[1..k];
      assert forall z :: z in s[1..k] ==> z in s[..k];
      FirstIndexIs(s[1..], x, k - 1);
    }
  }

  lemma FirstIndexSnoc(s: seq<int>, y: int, x: int)
    requires x in s
    ensures FirstIndex(s + [y], x) == FirstIndex(s, x)
  {
    var k := FirstIndex(s, x);
    assert (s + [y])[..k] == s[..k];
    FirstIndexIs(s + [y], x, k);
  }

  /** The deduplicated bits have no repeats and keep the order of first occurrences. */
  lemma {:induction false} DedupeSpec(bits: seq<int>)
    ensures NoDuplicates(Dedupe(bits))
    ensures forall i, j :: 0 <= i < j < |Dedupe(bits)| ==>
              FirstIndex(bits, Dedupe(bits)[i]) < FirstIndex(bits, Dedupe(bits)[j])
  {
    if |bits| > 0 {
      var init, last := bits[..|bits| - 1], bits[|bits| - 1];
      var d := Dedupe(init);
      DedupeSpec(init);
      assert bits == init + [last];
      forall x | x in d ensures FirstIndex(bits, x) == FirstIndex(init, x) {
        FirstIndexSnoc(init, last, x);
      }
      if last !in d {
        var r := d + [last];
        forall i | 0 <= i < |d| ensures FirstIndex(bits, r[i]) < FirstIndex(bits, last) {
          assert r[i] in d;
          assert last !in init;
          assert FirstIndex(bits, last) == |init|;
        }
      }
    }
  }

  /** Whether the configuration asks for bit `x`, directly or through a known group. */
  ghost predicate Requested(intents: seq<IntentRef>, x: int)
  {
    exists i :: 0 <= i < |intents| && x in BitsOf(intents[i])
  }

  lemma {:induction false} ExpandSpec(intents: seq<IntentRef>)
    ensures forall x :: x in Expand(intents) <==> Requested(intents, x)
  {
    if |intents| > 0 {
      var init := intents[..|intents| - 1];
      ExpandSpec(init);
      forall x ensures x in Expand(intents) <==> Requested(intents, x) {
        if Requested(intents, x) {
          var i :| 0 <= i < |intents| && x in BitsOf(intents[i]);
          if i < |intents| - 1 {
            assert intents[i] == init[i];
          }
        }
        if x in Expand(init) {
          var i :| 0 <= i < |init| && x in BitsOf(init[i]);
          assert intents[i] == init[i];
        }
      }
    }
  }

  /** `resolveIntents(intents)`: the collecting loop, then the deduplication. */
  method ResolveIntents(intents: seq<IntentRef>) returns (r: seq<int>)
    ensures r == Dedupe(Expand(intents))
    ensures NoDuplicates(r)
    ensures forall x :: x in r <==> Requested(intents, x)
  {
    var bits: seq<int> := [];
    for i := 0 to |intents|
      invariant bits == Expand(intents[..i])
    {
      assert intents[..i + 1][..i] == intents[..i];
      bits := bits + BitsOf(intents[i]);
    }
    assert intents[..|intents|] == intents;
    r := [];
    for i := 0 to |bits|
      invariant r == Dedupe(bits[..i])
    {
      assert bits[..i + 1][..i] == bits[..i];
      if bits[i] !in r {
        r := r + [bits[i]];
      }
    }
    assert bits[..|bits|] == bits;
    DedupeSpec(bits);
    ExpandSpec(intents);
  }

  // ---------------------------------------------------------------------------
  // The client holder

  datatype Config = Config(token: string, intents: seq<IntentRef>, publicKey: Option<string>)

  /** A constructed client: its resolved intents, its public key when one was configured
      (an empty key is not set), and the token it logs in with. */
  datatype ClientInfo = ClientInfo(intents: seq<int>, publicKey: Option<string>, token: string)

  const NotInitialized: string := "Discord Client not initialized yet."
  const ChannelNotFound: string := "Channel not found"
  const NotTextChannel: string := "Channel is not a text-based channel with send()"

  /** A channel as `sendToChannel` inspects it. */
  datatype Channel = Channel(textBased: bool, hasSend: bool, channelType: int)

  datatype Attempt<T> = Success(value: T) | Failure(error: string)

  /** The message a channel received. */
  datatype Sent = Sent(channel: Channel, message: string)

  /** The `client` and `ready` module variables. */
  class ClientHolder {
    var client: Option<ClientInfo>
    var ready: bool

    constructor()
      ensures client.None? && !ready
    {
      client := None;
      ready := false;
    }

    /** `getClient(config)`: builds and logs in a client on the first call only; every
        call returns the one client. */
    method GetClient(config: Config) returns (c: ClientInfo)
      modifies this`client
      ensures old(client).Some? ==> client == old(client) && c == old(client).value
      ensures old(client).None? ==> client == Some(c)
      ensures old(client).None? ==> c.token == config.token &&
                                    (c.publicKey.Some? <==> config.publicKey.Some? && config.publicKey.value != "") &&
                                    (c.publicKey.Some? ==> c.publicKey == config.publicKey)
      ensures old(client).None? ==> NoDuplicates(c.intents) &&
                                    forall x :: x in c.intents <==> Requested(config.intents, x)
    {
      if client.None? {
        var intents := ResolveIntents(config.intents);
        var key := if config.publicKey.Some? && config.publicKey.value != "" then config.publicKey else None;
        client := Some(ClientInfo(intents, key, config.token));
      }
      c := client.value;
    }

    /** The `ready` event. */
    method OnReady()
      modifies this`ready
      ensures ready
    {
      ready := true;
    }

    /** Any property read through the `Client` proxy. */
    function Access(): (r: Attempt<ClientInfo>)
      reads this`client
      ensures client.None? <==> r == Failure(NotInitialized)
      ensures client.Some? ==> r == Success(client.value)
    {
      if client.None? then Failure(NotInitialized) else Success(client.value)
    }

    /** `sendToChannel(channelId, message, opts)`, with `fetched` the channel the fetch
        produced and `allow` the allowed channel types when given. */
    function SendToChannel(fetched: Option<Channel>, message: string, allow: Option<seq<int>>): (r: Attempt<Sent>)
      reads this`client
      ensures client.None? ==> r == Failure(NotInitialized)
      ensures client.Some? && fetched.None? ==> r == Failure(ChannelNotFound)
      ensures r.Success? <==> client.Some? && fetched.Some? && Sendable(fetched.value, allow)
      ensures r.Success? ==> r.value == Sent(fetched.value, message)
      ensures client.Some? && fetched.Some? && !Sendable(fetched.value, allow) ==> r == Failure(NotTextChannel)
    {
      if Access().Failure? then Failure(NotInitialized)
      else if fetched.None? then Failure(ChannelNotFound)
      else if Sendable(fetched.value, allow) then Success(Sent(fetched.value, message))
      else Failure(NotTextChannel)
    }
  }

  /** A text-based channel with `send`, of an allowed type when a list is given. */
  predicate Sendable(ch: Channel, allow: Option<seq<int>>)
  {
    ch.textBased && ch.hasSend && (allow.None? || ch.channelType in allow.value)
  }

  /** Two calls of `getClient` return the same client, whatever the second configuration. */
  method GetClientTwice(holder: ClientHolder, first: Config, second: Config) returns (a: ClientInfo, b: ClientInfo)
    modifies holder`client
    ensures a == b
  {
    a := holder.GetClient(first);
    b := holder.GetClient(second);
  }
}
