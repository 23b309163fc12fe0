/** The `ProcessBase` class: a process's Lamport clock, broadcast scope and
    out-of-order buffer, and the typed send, broadcast, receive and dispatch
    operations that keep them up to date. The transport is not modelled: what a
    blocking receive or a size probe would return is passed in, and what the
    transport is asked to do is recorded in ghost logs. */
module Process {
  import opened Messages
  import LamportClock
  import MessageBuffer
  import Scope

  /** The outcome of `receiveVector`: the fatal exit taken on an undefined or
      empty probe, or the status of the batch that was received. */
  datatype VectorReceipt = Fatal | Received(status: Status)

  class ProcessBase {
    const rank: int
    var lamportClock: nat
    var broadcastScope: seq<int>
    var messageBuffer: seq<Entry>

    /** Every send the transport was asked to perform, in order. */
    ghost var transmitted: seq<Transmission>
    /** Every blocking receive the transport performed, in order. */
    ghost var deliveries: seq<Delivery>
    /** Every handler invocation of the multi-tag dispatcher, in order. */
    ghost var handled: seq<Entry>

    constructor (rank: int)
      ensures this.rank == rank && lamportClock == 0
      ensures broadcastScope == [] && messageBuffer == []
      ensures transmitted == [] && deliveries == [] && handled == []
    {
      this.rank := rank;
      lamportClock := 0;
      broadcastScope := [];
      messageBuffer := [];
      transmitted := [];
      deliveries := [];
      handled := [];
    }

    /** `advanceClock`: a local event that is not a send. */
    method AdvanceClock() returns (c: nat)
      modifies this`lamportClock
      ensures lamportClock == old(lamportClock) + 1
      ensures c == lamportClock
    {
      lamportClock := lamportClock + 1;
      c := lamportClock;
    }

    method SetBroadcastScope(recipientRanks: seq<int>)
      modifies this`broadcastScope
      ensures broadcastScope == recipientRanks
    {
      broadcastScope := recipientRanks;
    }

    /** `storeInBuffer`: append at the end of the buffer. */
    method StoreInBuffer(message: Message, status: Status)
      modifies this`messageBuffer
      ensures messageBuffer == old(messageBuffer) + [Entry(message, status)]
    {
      messageBuffer := messageBuffer + [Entry(message, status)];
    }

    /** `fetchFromBuffer`: scan the buffer in list order and unlink the first
        entry whose source and tag satisfy the request. */
    method FetchFromBuffer(sourceRank: Source, tags: seq<int>) returns (found: Option<Entry>)
      modifies this`messageBuffer
      ensures MessageBuffer.Fetched(found, messageBuffer) ==
              MessageBuffer.Fetch(old(messageBuffer), sourceRank, tags)
    {
      var i := 0;
      while i < |messageBuffer| && !MessageBuffer.Matches(messageBuffer[i], sourceRank, tags)
        invariant i <= |messageBuffer|
        invariant forall j :: 0 <= j < i ==> !MessageBuffer.Matches(messageBuffer[j], sourceRank, tags)
      {
        i := i + 1;
      }
      if i == |messageBuffer| {
        found := None;
      } else {
        assert MessageBuffer.FirstMatch(messageBuffer, sourceRank, tags) == Some(i);
        found := Some(messageBuffer[i]);
        messageBuffer := messageBuffer[..i] + messageBuffer[i + 1..];
      }
    }

    /** `send`: advance the clock, stamp the message with the new clock value
        and hand it to the transport. The caller's message is returned stamped. */
    method Send(message: Message, recipientRank: int, tag: int) returns (stamped: Message)
      modifies this`lamportClock, this`transmitted
      ensures lamportClock == old(lamportClock) + 1
      ensures stamped == SetTimestamp(message, lamportClock)
      ensures transmitted == old(transmitted) + [Transmission(recipientRank, tag, [stamped])]
    {
      lamportClock := lamportClock + 1;
      stamped := SetTimestamp(message, lamportClock);
      transmitted := transmitted + [Transmission(recipientRank, tag, [stamped])];
    }

    /** `broadcast`: one clock advance and one stamp, then one send to every
        rank of the scope other than this process's own, in scope order. */
    method Broadcast(message: Message, tag: int) returns (stamped: Message)
      modifies this`lamportClock, this`transmitted
      ensures lamportClock == old(lamportClock) + 1
      ensures stamped == SetTimestamp(message, lamportClock)
      ensures transmitted == old(transmitted) +
              Scope.SendsTo(Scope.Recipients(broadcastScope, rank), tag, [stamped])
    {
      lamportClock := lamportClock + 1;
      stamped := SetTimestamp(message, lamportClock);
      TransmitToScope([stamped], tag);
    }

    /** The loop shared by `broadcast` and `broadcastVector`: walk the scope
        in order, skip this process's own rank, send the batch to every other. */
    method TransmitToScope(batch: seq<Message>, tag: int)
      modifies this`transmitted
      ensures transmitted == old(transmitted) +
              Scope.SendsTo(Scope.Recipients(broadcastScope, rank), tag, batch)
    {
      var scope, self := broadcastScope, rank;
      ghost var sends: seq<Transmission> := [];
      for i := 0 to |scope|
        invariant sends == Scope.SendsTo(Scope.Recipients(scope[..i], self), tag, batch)
        invariant transmitted == old(transmitted) + sends
      {
        var recipientRank := scope[i];
        Scope.NextRecipient(scope, i, self, tag, batch);
        if recipientRank != self {
          transmitted := transmitted + [Transmission(recipientRank, tag, batch)];
          sends := sends + [Transmission(recipientRank, tag, batch)];
        }
      }
      assert scope[..|scope|] == scope;
    }

    /** The loop shared by `sendVector` and `broadcastVector`: stamp every
        element of the batch, in place, with the current clock. */
    method StampBatch(message: array<Message>)
      modifies message
      ensures message[..] == StampAll(old(message[..]), lamportClock)
    {
      for i := 0 to message.Length
        invariant forall k :: 0 <= k < i ==> message[k] == SetTimestamp(old(message[k]), lamportClock)
        invariant forall k :: i <= k < message.Length ==> message[k] == old(message[k])
      {
        message[i] := SetTimestamp(message[i], lamportClock);
      }
      assert forall k :: 0 <= k < message.Length ==>
        message[..][k] == StampAll(old(message[..]), lamportClock)[k];
    }

    /** `sendVector`: one clock advance for the whole batch; every element
        carries the new clock value; the batch goes out in one transport call. */
    method SendVector(message: array<Message>, recipientRank: int, tag: int)
      modifies this`lamportClock, this`transmitted, message
      ensures lamportClock == old(lamportClock) + 1
      ensures message[..] == StampAll(old(message[..]), lamportClock)
      ensures transmitted == old(transmitted) + [Transmission(recipientRank, tag, message[..])]
    {
      lamportClock := lamportClock + 1;
      StampBatch(message);
      transmitted := transmitted + [Transmission(recipientRank, tag, message[..])];
    }

    /** `broadcastVector`: one clock advance and one stamping pass, then the
        batch goes to every rank of the scope other than this process's own. */
    method BroadcastVector(message: array<Message>, tag: int)
      modifies this`lamportClock, this`transmitted, message
      ensures lamportClock == old(lamportClock) + 1
      ensures message[..] == StampAll(old(message[..]), lamportClock)
      ensures transmitted == old(transmitted) +
              Scope.SendsTo(Scope.Recipients(broadcastScope, rank), tag, message[..])
    {
      lamportClock := lamportClock + 1;
      StampBatch(message);
      TransmitToScope(message[..], tag);
    }

    /** `receive`: a message waiting in the buffer for `(sourceRank, tag)` is
        taken from there and the transport is not used; otherwise the transport
        delivers `delivered`. Either way the clock observes the message's
        timestamp exactly once. */
    method Receive(sourceRank: Source, tag: int, delivered: Entry) returns (message: Message, status: Status)
      modifies this`messageBuffer, this`lamportClock, this`deliveries
      ensures var f := MessageBuffer.Fetch(old(messageBuffer), sourceRank, [tag]);
        && messageBuffer == f.rest
        && Entry(message, status) == (if f.found.Some? then f.found.value else delivered)
        && deliveries == old(deliveries) +
           (if f.found.Some? then [] else [Delivery([delivered.message], delivered.status)])
      ensures lamportClock == LamportClock.Observe(old(lamportClock), message.timestamp)
    {
      var buffered := FetchFromBuffer(sourceRank, [tag]);
      if buffered.Some? {
        message, status := buffered.value.message, buffered.value.status;
      } else {
        message, status := delivered.message, delivered.status;
        deliveries := deliveries + [Delivery([message], status)];
      }
      var timestamp := message.timestamp;
      lamportClock := LamportClock.Observe(lamportClock, timestamp);
    }

    /** `receiveAny`: `receive` with the any-source wildcard. */
    method ReceiveAny(tag: int, delivered: Entry) returns (message: Message, status: Status)
      modifies this`messageBuffer, this`lamportClock, this`deliveries
      ensures var f := MessageBuffer.Fetch(old(messageBuffer), AnySource, [tag]);
        && messageBuffer == f.rest
        && Entry(message, status) == (if f.found.Some? then f.found.value else delivered)
        && deliveries == old(deliveries) +
           (if f.found.Some? then [] else [Delivery([delivered.message], delivered.status)])
      ensures lamportClock == LamportClock.Observe(old(lamportClock), message.timestamp)
    {
      message, status := Receive(AnySource, tag, delivered);
    }

    /** `receiveVector`: probe first. An undefined or zero count is fatal and
        happens before any resize, receive or clock change. Otherwise the
        destination becomes a batch of exactly the probed length, received in
        one transport call, and only its first element's timestamp feeds the
        clock. `delivered` is what the transport writes for that count. */
    method ReceiveVector(destination: array<Message>, sourceRank: Source, tag: int,
                         probe: Probe, delivered: seq<Message>, deliveredStatus: Status)
      returns (receipt: VectorReceipt, message: array<Message>)
      requires probe.Count? && probe.n != 0 ==> |delivered| == probe.n
      modifies this`lamportClock, this`deliveries
      ensures receipt.Fatal? <==> probe.Undefined? || probe.n == 0
      ensures receipt.Fatal? ==> message == destination && lamportClock == old(lamportClock)
      ensures receipt.Fatal? ==> deliveries == old(deliveries)
      ensures receipt.Received? ==> fresh(message) && message.Length == probe.n
      ensures receipt.Received? ==> message[..] == delivered && receipt.status == deliveredStatus
      ensures receipt.Received? ==> deliveries == old(deliveries) + [Delivery(delivered, deliveredStatus)]
      ensures receipt.Received? ==>
        lamportClock == LamportClock.Observe(old(lamportClock), message[0].timestamp)
    {
      if probe.Undefined? || probe.n == 0 {
        return Fatal, destination;
      }
      var size := probe.n;
      message := new Message[size](k requires 0 <= k < size => delivered[k]);
      assert message[..] == delivered;
      deliveries := deliveries + [Delivery(message[..], deliveredStatus)];
      var timestamp := message[0].timestamp;
      lamportClock := LamportClock.Observe(lamportClock, timestamp);
      receipt := Received(deliveredStatus);
    }

    /** `receiveVectorAny`: `receiveVector` with the any-source wildcard. */
    method ReceiveVectorAny(destination: array<Message>, tag: int,
                            probe: Probe, delivered: seq<Message>, deliveredStatus: Status)
      returns (receipt: VectorReceipt, message: array<Message>)
      requires probe.Count? && probe.n != 0 ==> |delivered| == probe.n
      modifies this`lamportClock, this`deliveries
      ensures receipt.Fatal? <==> probe.Undefined? || probe.n == 0
      ensures receipt.Fatal? ==> message == destination && lamportClock == old(lamportClock)
      ensures receipt.Fatal? ==> deliveries == old(deliveries)
      ensures receipt.Received? ==> fresh(message) && message.Length == probe.n
      ensures receipt.Received? ==> message[..] == delivered && receipt.status == deliveredStatus
      ensures receipt.Received? ==> deliveries == old(deliveries) + [Delivery(delivered, deliveredStatus)]
      ensures receipt.Received? ==>
        lamportClock == LamportClock.Observe(old(lamportClock), message[0].timestamp)
    {
      receipt, message := ReceiveVector(destination, AnySource, tag, probe, delivered, deliveredStatus);
    }

    /** `receiveMultiTagHandle`: receive the next message on `tag` from the
        transport. If its tag has a handler, the clock observes it and the
        handler runs once; otherwise it is appended to the buffer, the clock is
        left alone and no handler runs. The result says whether one ran. */
    method ReceiveMultiTagHandle(sourceRank: Source, tag: int, handlerTags: set<int>, delivered: Entry)
      returns (fired: bool)
      modifies this`messageBuffer, this`lamportClock, this`deliveries, this`handled
      ensures deliveries == old(deliveries) + [Delivery([delivered.message], delivered.status)]
      ensures fired <==> delivered.status.tag in handlerTags
      ensures fired ==> lamportClock == LamportClock.Observe(old(lamportClock), delivered.message.timestamp)
      ensures fired ==> handled == old(handled) + [delivered] && messageBuffer == old(messageBuffer)
      ensures !fired ==> messageBuffer == old(messageBuffer) + [delivered]
      ensures !fired ==> lamportClock == old(lamportClock) && handled == old(handled)
    {
      var message, status := delivered.message, delivered.status;
      deliveries := deliveries + [Delivery([message], status)];
      if status.tag in handlerTags {
        var timestamp := message.timestamp;
        lamportClock := LamportClock.Observe(lamportClock, timestamp);
        handled := handled + [Entry(message, status)];
        return true;
      }
      StoreInBuffer(message, status);
      return false;
    }
  }
}
