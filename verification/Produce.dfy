/** Sending: one message, or a batch in order until the first failure. */
module Produce {
  type Payload = seq<bv8>

  datatype SendResult = NoProducer | AllSent | FailedAt(index: nat)

  class Sender {
    var producerSent: nat
    var producerFailed: nat
    ghost var attempts: seq<Payload>    // every message handed to Send, in order
    ghost var accepted: seq<Payload>    // those for which Send reported no error

    /** The two counters account for every attempt. */
    ghost predicate Valid()
      reads this
    {
      producerSent == |accepted| && producerSent + producerFailed == |attempts|
    }

    constructor ()
      ensures Valid() && attempts == [] && accepted == []
    {
      producerSent, producerFailed, attempts, accepted := 0, 0, [], [];
    }

    method Send(m: Payload, err: bool)
      modifies this`attempts, this`accepted
      ensures attempts == old(attempts) + [m]
      ensures accepted == if err then old(accepted) else old(accepted) + [m]
    {
      attempts := attempts + [m];
      if !err {
        accepted := accepted + [m];
      }
    }

    method ProduceWith(present: bool, m: Payload, err: bool) returns (r: SendResult)
      requires Valid()
      modifies this
      ensures Valid()
      ensures r == if !present then NoProducer else if err then FailedAt(0) else AllSent
      ensures attempts == old(attempts) + if present then [m] else []
      ensures accepted == old(accepted) + if r.AllSent? then [m] else []
    {
      if !present {
        return NoProducer;
      }
      Send(m, err);
      if err {
        producerFailed := producerFailed + 1;
        return FailedAt(0);
      }
      producerSent := producerSent + 1;
      return AllSent;
    }

    /** `err(i)` is the outcome of sending the i-th message. What is sent is exactly an in-order prefix
        with one attempt a message: all of it, or up to and including the first that fails. */
    method ProduceBatch(present: bool, messages: seq<Payload>, err: nat -> bool) returns (r: SendResult)
      requires Valid()
      modifies this
      ensures Valid()
      ensures r.NoProducer? <==> !present
      ensures r.NoProducer? ==> attempts == old(attempts) && accepted == old(accepted)
      ensures r.AllSent? <==> present && forall i | 0 <= i < |messages| :: !err(i)
      ensures r.AllSent? ==> attempts == old(attempts) + messages && accepted == old(accepted) + messages
      ensures r.AllSent? ==> producerFailed == old(producerFailed)
      ensures r.FailedAt? ==>
                && r.index < |messages| && err(r.index) && (forall i | 0 <= i < r.index :: !err(i))
                && attempts == old(attempts) + messages[..r.index + 1]
                && accepted == old(accepted) + messages[..r.index]
                && producerSent == old(producerSent) + r.index && producerFailed == old(producerFailed) + 1
    {
      if !present {
        return NoProducer;
      }
      var i := 0;
      while i < |messages|
        invariant 0 <= i <= |messages|
        invariant forall j | 0 <= j < i :: !err(j)
        invariant attempts == old(attempts) + messages[..i] && accepted == old(accepted) + messages[..i]
        invariant producerSent == old(producerSent) + i && producerFailed == old(producerFailed)
      {
        assert messages[..i + 1] == messages[..i] + [messages[i]];
        Send(messages[i], err(i));
        if err(i) {
          producerFailed := producerFailed + 1;
          return FailedAt(i);
        }
        producerSent := producerSent + 1;
        i := i + 1;
      }
      assert messages[..i] == messages;
      return AllSent;
    }
  }
}
