/** The operator's replay of a dead-letter queue (internal/messaging/dlq.go). */
module Dlq {
  import opened OrderModel
  import opened Metadata

  datatype ReplayConfig = ReplayConfig(queue: string, exchange: string, routingKey: string, limit: int)

  datatype ReplayError = ConfigMissing | ConfirmModeFailed | GetFailed | PublishFailed | NotConfirmed | AckFailed

  /** What goes wrong while one letter is handled. An unconfirmed publication may still have landed. */
  datatype Fault = Fine | GetFault | PublishFault | ConfirmFault(landed: bool) | AckFault

  const DEFAULT_LIMIT: nat := 100

  function Limit(config: ReplayConfig): (n: nat) {
    if config.limit <= 0 then DEFAULT_LIMIT else config.limit
  }

  predicate Complete(config: ReplayConfig) {
    config.queue != "" && config.exchange != "" && config.routingKey != ""
  }

  /** The letters as they are republished. */
  function Rekeyed(letters: seq<Message>, key: string): (out: seq<Message>)
    ensures |out| == |letters|
    ensures forall i :: 0 <= i < |letters| ==> out[i] == Sent(letters[i], Replayed(key))
  {
    seq(|letters|, i requires 0 <= i < |letters| => Sent(letters[i], Replayed(key)))
  }

  function Min(a: nat, b: nat): (m: nat) {
    if a < b then a else b
  }

  /** The queue being drained and everything published to the exchange. */
  class Channel {
    var letters: seq<Message>
    var exchange: seq<Message>

    constructor (letters: seq<Message>)
      ensures this.letters == letters && exchange == []
    {
      this.letters, exchange := letters, [];
    }
  }

  /** The first `n` letters, and nothing else, were added to what was published. */
  ghost predicate Republished(before: seq<Message>, after: seq<Message>, letters: seq<Message>, key: string, n: nat) {
    n <= |letters| && after == before + Rekeyed(letters[..n], key)
  }

  /** Letters leave the queue in order, each one republished unchanged but for its routing key before it
      is acknowledged. Whatever fails, the letters that were not counted are still queued; at most one of
      them has also been republished. Without a failure, everything up to the limit is replayed. */
  method ReplayDLQ(config: ReplayConfig, channel: Channel, confirmMode: bool, faults: nat -> Fault)
    returns (replayed: nat, error: Option<ReplayError>)
    modifies channel
    ensures replayed <= Min(Limit(config), |old(channel.letters)|)
    ensures replayed <= if config.limit > 0 then config.limit else 100
    ensures channel.letters == old(channel.letters)[replayed..]
    ensures Republished(old(channel.exchange), channel.exchange, old(channel.letters), config.routingKey, replayed)
      || (Republished(old(channel.exchange), channel.exchange, old(channel.letters), config.routingKey, replayed + 1)
          && (error == Some(AckFailed) || error == Some(NotConfirmed)))
    ensures error.None? && channel.letters != [] ==> replayed == if config.limit > 0 then config.limit else 100
    ensures error.None? ==> replayed == Min(Limit(config), |old(channel.letters)|)
    ensures error == Some(ConfigMissing) <==> !Complete(config)
    ensures error.Some? && error.value.ConfigMissing? ==> replayed == 0 && channel.exchange == old(channel.exchange)
    ensures Complete(config) && confirmMode && (forall i :: faults(i) == Fine) ==> error.None?
  {
    assert Limit(config) == if config.limit > 0 then config.limit else 100;
    replayed, error := 0, None;
    ghost var start, sent := channel.letters, channel.exchange;
    assert Republished(sent, sent, start, config.routingKey, 0);
    if config.queue == "" || config.exchange == "" || config.routingKey == "" {
      return 0, Some(ConfigMissing);
    }
    if !confirmMode {
      return 0, Some(ConfirmModeFailed);
    }
    while replayed < Limit(config)
      invariant replayed <= Min(Limit(config), |start|)
      invariant channel.letters == start[replayed..]
      invariant Republished(sent, channel.exchange, start, config.routingKey, replayed)
    {
      var fault := faults(replayed);
      if fault.GetFault? {
        return replayed, Some(GetFailed);
      }
      if channel.letters == [] {
        return replayed, None;
      }
      var delivery := channel.letters[0];
      if fault.PublishFault? {
        return replayed, Some(PublishFailed);
      }
      var copy := delivery.(routingKey := config.routingKey);
      RekeyedGrows(start, replayed, config.routingKey);
      if fault.ConfirmFault? {
        if fault.landed {
          channel.exchange := channel.exchange + [copy];
        }
        return replayed, Some(NotConfirmed);
      }
      channel.exchange := channel.exchange + [copy];
      if fault.AckFault? {
        return replayed, Some(AckFailed);
      }
      channel.letters := channel.letters[1..];
      replayed := replayed + 1;
    }
  }

  lemma RekeyedGrows(letters: seq<Message>, n: nat, key: string)
    requires n < |letters|
    ensures Rekeyed(letters[..n + 1], key) == Rekeyed(letters[..n], key) + [letters[n].(routingKey := key)]
  {
  }
}
