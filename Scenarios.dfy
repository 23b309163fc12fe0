/** Scenarios that drive fresh processes through the class's operations and
    check, from the class's contracts alone, what one process observes. */
module Scenarios {
  import opened Messages
  import LamportClock
  import MessageBuffer
  import Process
  import Scope

  /** Causal ordering: after any history on both sides, the receive of a sent
      message ends at a clock strictly above the clock of the send. */
  method CausalDelivery(m: Message, senderRank: int, receiverRank: int, tag: int,
                        senderEvents: nat, receiverEvents: nat)
    returns (sendClock: nat, receiveClock: nat)
    ensures receiveClock > sendClock
  {
    var sender := new Process.ProcessBase(senderRank);
    var receiver := new Process.ProcessBase(receiverRank);
    for _ := 0 to senderEvents
      invariant receiver.messageBuffer == []
    {
      var _ := sender.AdvanceClock();
    }
    for _ := 0 to receiverEvents
      invariant receiver.messageBuffer == []
    {
      var _ := receiver.AdvanceClock();
    }
    var stamped := sender.Send(m, receiverRank, tag);
    sendClock := sender.lamportClock;
    var status := Status(senderRank, tag);
    var received, _ := receiver.Receive(Rank(senderRank), tag, Entry(stamped, status));
    receiveClock := receiver.lamportClock;
  }

  /** Buffer transparency: a message taken from the buffer yields the same
      payload, status and clock as the same message taken from the transport. */
  method BufferTransparency(e: Entry, selfRank: int, other: Entry)
    returns (viaBuffer: Entry, direct: Entry, clockViaBuffer: nat, clockDirect: nat)
    ensures viaBuffer == direct == e
    ensures clockViaBuffer == clockDirect == LamportClock.Observe(0, e.message.timestamp)
  {
    var p := new Process.ProcessBase(selfRank);
    p.StoreInBuffer(e.message, e.status);
    MessageBuffer.StoreThenFetch([], e, Rank(e.status.source), [e.status.tag]);
    assert [] + [e] == [e];
    var m1, s1 := p.Receive(Rank(e.status.source), e.status.tag, other);
    viaBuffer, clockViaBuffer := Entry(m1, s1), p.lamportClock;

    var q := new Process.ProcessBase(selfRank);
    var m2, s2 := q.Receive(Rank(e.status.source), e.status.tag, e);
    direct, clockDirect := Entry(m2, s2), q.lamportClock;
  }

  /** Dispatch routing: with a handler for tag 3 and none for tag 4, a tag-4
      message is buffered without touching the clock, a tag-3 message fires
      the handler, and a later typed receive for tag 4 gets the buffered
      message without the transport. */
  method DispatchRouting(m3: Message, m4: Message, source: int, selfRank: int, unused: Entry)
    returns (fired4: bool, fired3: bool, later: Message, clockAfter4: nat, bufferLeft: nat)
    ensures !fired4 && fired3
    ensures clockAfter4 == 0
    ensures later == m4
    ensures bufferLeft == 0
  {
    var p := new Process.ProcessBase(selfRank);
    var e4 := Entry(m4, Status(source, 4));
    fired4 := p.ReceiveMultiTagHandle(Rank(source), 4, {3}, e4);
    clockAfter4 := p.lamportClock;
    assert p.messageBuffer == [e4];
    fired3 := p.ReceiveMultiTagHandle(Rank(source), 3, {3}, Entry(m3, Status(source, 3)));
    assert p.messageBuffer == [e4];
    assert p.handled == [Entry(m3, Status(source, 3))];
    ghost var deliveriesBefore := p.deliveries;
    assert MessageBuffer.FirstMatch([e4], Rank(source), [4]) == Some(0);
    var status;
    later, status := p.Receive(Rank(source), 4, unused);
    assert p.deliveries == deliveriesBefore;
    bufferLeft := |p.messageBuffer|;
  }

  /** Fatal probe: an undefined or zero probe ends `receiveVector` with the
      fatal outcome, the clock and the destination untouched. */
  method FatalProbe(m: Message, source: int, tag: int, zero: bool, delivered: seq<Message>)
    returns (fatal: bool, clockBefore: nat, clockAfter: nat, destinationLength: nat)
    ensures fatal && clockAfter == clockBefore && destinationLength == 1
  {
    var p := new Process.ProcessBase(0);
    var _ := p.Send(m, source, tag);
    clockBefore := p.lamportClock;
    var destination := new Message[1](_ => m);
    var probe := if zero then Count(0) else Undefined;
    var receipt, message := p.ReceiveVector(destination, Rank(source), tag, probe, delivered, Status(source, tag));
    fatal := receipt.Fatal?;
    clockAfter := p.lamportClock;
    destinationLength := message.Length;
  }

  /** Broadcast self-exclusion: scope 2, 5, 7 at rank 5 sends to 2 then 7, and
      the clock advances by exactly one. */
  method BroadcastFromMiddle(m: Message, tag: int)
    returns (clockAdvance: int, recipients: seq<int>, ghost log: seq<Transmission>)
    ensures clockAdvance == 1
    ensures recipients == [2, 7]
    ensures |log| == 2 && log[0].recipient == 2 && log[1].recipient == 7
  {
    var p := new Process.ProcessBase(5);
    p.SetBroadcastScope([2, 5, 7]);
    var stamped := p.Broadcast(m, tag);
    clockAdvance := p.lamportClock;
    Scope.SelfExcludedExample();
    recipients := Scope.Recipients(p.broadcastScope, p.rank);
    log := p.transmitted;
  }
}
