/** Value types shared by every component of a process: messages with their
    logical timestamp, delivery metadata, source filters and the records the
    transport keeps of what was sent and delivered. */
module Messages {

  datatype Option<+T> = None | Some(value: T)

  /** A message of the algorithm layer. Its payload is abstract; every message
      exposes an integer logical timestamp that sends overwrite. */
  datatype Message = Message(body: seq<int>, timestamp: int)

  /** Delivery metadata of a received message (the `mpl::status`): the actual
      source rank and the actual tag. */
  datatype Status = Status(source: int, tag: int)

  /** The source argument of a receive: one rank, or the `any_source` wildcard. */
  datatype Source = AnySource | Rank(rank: int)

  /** One message together with the status it arrived with: an entry of the
      out-of-order buffer, and what one transport receive hands over. */
  datatype Entry = Entry(message: Message, status: Status)

  /** One call of the transport's send: the recipient, the tag and the batch of
      messages (a single message is a batch of one). */
  datatype Transmission = Transmission(recipient: int, tag: int, messages: seq<Message>)

  /** One call of the transport's blocking receive: the messages it wrote into
      the destination and the status it returned. */
  datatype Delivery = Delivery(messages: seq<Message>, status: Status)

  /** The element count reported by a size probe, or the `undefined` sentinel. */
  datatype Probe = Undefined | Count(n: nat)

  /** `setTimestamp`: the message with its timestamp field overwritten by `ts`
      and its payload untouched. */
  function SetTimestamp(m: Message, ts: int): (r: Message)
    ensures r.timestamp == ts && r.body == m.body
  {
    m.(timestamp := ts)
  }

  /** The batch `ms` after every element has been stamped with one clock value. */
  function StampAll(ms: seq<Message>, ts: int): (r: seq<Message>)
    ensures |r| == |ms|
    ensures forall i :: 0 <= i < |r| ==> r[i].timestamp == ts && r[i].body == ms[i].body
  {
    seq(|ms|, i requires 0 <= i < |ms| => SetTimestamp(ms[i], ts))
  }
}
