/** The per-process Lamport clock: how a local event and a receive move it,
    and what any sequence of such events does to it. */
module LamportClock {

  /** The receive rule `max(clock, timestamp) + 1`: the least value strictly
      above both the local clock and the incoming timestamp. */
  function Observe(clock: nat, timestamp: int): (r: nat)
    ensures r > clock && r > timestamp
    ensures r - 1 == clock || r - 1 == timestamp
  {
    (if clock >= timestamp then clock else timestamp) + 1
  }

  /** Events that move the clock. A send, a broadcast, a vector send, a vector
      broadcast and an explicit advance are each one `Local` event, whatever the
      number of recipients or elements; a receive observes one timestamp. */
  datatype Event = Local | Receipt(timestamp: int)

  function Step(clock: nat, e: Event): (r: nat)
    ensures r > clock
    ensures e.Receipt? ==> r > e.timestamp
  {
    match e
    case Local => clock + 1
    case Receipt(ts) => Observe(clock, ts)
  }

  /** The clock after the events `events`, in order, starting from `clock`. */
  function Run(clock: nat, events: seq<Event>): (r: nat)
    ensures r >= clock + |events|
    decreases |events|
  {
    if events == [] then clock
    else Step(Run(clock, events[..|events| - 1]), events[|events| - 1])
  }

  /** The clock strictly increases along every sequence of events: a later
      prefix always ends at a larger clock than an earlier one. */
  lemma {:induction false} RunStrictlyIncreases(clock: nat, events: seq<Event>, i: nat, j: nat)
    requires i < j <= |events|
    ensures Run(clock, events[..i]) < Run(clock, events[..j])
    decreases j
  {
    var prefix := events[..j];
    assert prefix[..j - 1] == events[..j - 1];
    assert Run(clock, prefix) == Step(Run(clock, events[..j - 1]), prefix[j - 1]);
    if i < j - 1 {
      RunStrictlyIncreases(clock, events, i, j - 1);
    }
  }
}
