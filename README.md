# ProcessBase: Lamport clock, out-of-order buffer and tagged messaging

This project models the sequential core of `ProcessBase`, the base class of every
process in an MPI testbed for distributed algorithms. It has four parts:

- a **Lamport clock** (`lamportClock`). Every send, broadcast, vector send and vector
  broadcast advances it by one. Every receive sets it to `max(clock, timestamp) + 1`.
- an **out-of-order buffer** (`messageBuffer`). It holds (message, status) pairs in
  arrival order. `receive` and `receiveAny` take their match from here before they ask the
  transport; `receiveVector` and `receiveVectorAny` go to the transport directly.
- **typed send, broadcast and receive operations**. They stamp outgoing messages with
  the clock and update the clock on every inbound message. A broadcast skips the
  process's own rank. A vector receive fails fast when the probed size is undefined or zero.
- a **multi-tag dispatch step**. It either runs the handler registered for the arriving
  tag or buffers the message for a later typed receive.

Files:

- `Messages.dfy`: value types (message, status, source filter, buffer entry, transport
  records) and stamping.
- `LamportClock.dfy`: the receive rule `Observe`, one clock step per event, and the
  clock along any sequence of events.
- `MessageBuffer.dfy`: matching, first-match search, removal and `Fetch`, plus lemmas
  about storing and then fetching.
- `Scope.dfy`: the recipients of a broadcast and the sends it produces.
- `Process.dfy`: the `ProcessBase` class. Its fields are the clock, the scope and the
  buffer, and its methods update them in place, with loops where the source has loops.
- `Scenarios.dfy`: client methods that drive fresh processes through the class's
  contracts: causal delivery, buffer transparency, dispatch routing, the fatal probe,
  and self-exclusion in a broadcast.

The MPI transport (`mpl::communicator`) is not modelled. Whatever a blocking receive
or a size probe would return is passed to the method as a parameter. Every send,
every transport receive and every handler invocation is recorded in a ghost log:
`transmitted`, `deliveries` and `handled`.

The bodies of `setTimestamp`, `getTimestamp`, `storeInBuffer`, `fetchFromBuffer`,
`advanceClock` and `setBroadcastScope` are only declared in `process_base.h`. Their
implementation file is not part of this model. The model gives them this behaviour:

- `setTimestamp` writes a timestamp into a message. `getTimestamp` reads the field.
- `storeInBuffer` appends to the buffer.
- `fetchFromBuffer` unlinks and returns the first entry, in list order, whose source
  matches (or the filter is `any_source`) and whose tag is one of the requested tags.
  It returns nothing when no entry matches.
- `advanceClock` increments the clock and returns the new value.
- `setBroadcastScope` replaces the scope.

In `process_base.h:75-78` and `:84-87` the clock is incremented before the stamping
loop, so every element of a vector send or broadcast carries the post-increment value,
as in `send` and `broadcast` (`process_base.h:58-59`, `:65-66`). `SendVector` and
`BroadcastVector` state that value.

## Model

| member | source | states |
|---|---|---|
| Messages.SetTimestamp | process_base.h:19 | the stamped message has exactly the given timestamp and keeps its payload |
| Messages.StampAll | process_base.h:76-78 | a stamped batch has the input's length; every element carries the one clock value and keeps its own payload |
| LamportClock.Observe | process_base.h:105-106 | the receive rule yields a clock strictly above both the old clock and the incoming timestamp, and exactly one above the larger of the two |
| LamportClock.Step | process_base.h:58 | every event (a local send-type event or a receive) strictly raises the clock; a receive also lands above the incoming timestamp |
| LamportClock.Run | process_base.h:57-108 | after any sequence of events the clock has grown by at least the number of events, one per batch operation whatever its size |
| LamportClock.RunStrictlyIncreases | process_base.h:57-108 | along any event sequence the clock after a longer prefix is strictly greater than after a shorter one |
| MessageBuffer.Matches | process_base.h:22-23 | an entry satisfies a fetch request exactly when its source is the requested rank or the request is for any source, and its tag is one of the requested tags |
| MessageBuffer.FirstMatch | process_base.h:22-23 | the position returned holds a matching entry and no earlier entry matches; nothing is returned exactly when no entry matches |
| MessageBuffer.RemoveAt | process_base.h:22-23 | unlinking one entry shortens the buffer by one, keeps the other entries in order, and removes exactly that entry from the multiset |
| MessageBuffer.Fetch | process_base.h:22-23 | a fetch misses exactly when no entry matches, and then leaves the buffer alone; a hit returns the first matching entry in list order and unlinks exactly it, the others keeping their order |
| MessageBuffer.FirstMatchAfterStore | process_base.h:21-23 | appending an entry never changes an earlier first match; the new entry is found only when nothing before it matches |
| MessageBuffer.StoreThenFetch | process_base.h:21-23 | an entry stored behind entries that do not match is what the next matching fetch returns, and the buffer goes back to what it was |
| MessageBuffer.StoreBehindHit | process_base.h:21-23 | storing behind a buffer that already satisfies a request does not change what that request gets; the new entry stays at the end |
| Scope.Recipients | process_base.h:67-70 | a broadcast never reaches the process's own rank and reaches at most as many ranks as the scope lists |
| Scope.RecipientsCount | process_base.h:67-70 | the recipients are exactly the scope's ranks other than the own rank, each reached as often as the scope lists it |
| Scope.RecipientsAppend | process_base.h:67-70 | recipients follow scope order: those of a concatenated scope are those of the first part followed by those of the second |
| Scope.SendsTo | process_base.h:88-91 | one transport send per recipient, in recipient order, each with the same tag and the same batch |
| Scope.SelfExcludedExample | process_base.h:67-68 | scope 2, 5, 7 seen from rank 5 reaches 2 and then 7 |
| Process.ProcessBase.constructor | process_base.h:13 | a new process starts with clock 0, an empty scope, an empty buffer and empty logs |
| Process.ProcessBase.AdvanceClock | process_base.h:46 | the clock rises by exactly one and the new value is returned; nothing else changes |
| Process.ProcessBase.SetBroadcastScope | process_base.h:47 | the scope becomes the given ranks; nothing else changes |
| Process.ProcessBase.StoreInBuffer | process_base.h:21 | the entry is appended at the end of the buffer; nothing else changes |
| Process.ProcessBase.FetchFromBuffer | process_base.h:22-23 | the scanning loop returns, and unlinks, exactly what `Fetch` specifies |
| Process.ProcessBase.Send | process_base.h:57-61 | the clock rises by exactly one; the message goes out once, to the recipient on the tag, stamped with the new clock |
| Process.ProcessBase.Broadcast | process_base.h:64-71 | the clock rises by exactly one whatever the scope size; one stamped copy goes to every scope rank other than the own rank, in scope order |
| Process.ProcessBase.TransmitToScope | process_base.h:67-70 | the scope loop sends the batch once to each recipient, in scope order, skipping the own rank |
| Process.ProcessBase.StampBatch | process_base.h:76-78 | the in-place loop leaves every element stamped with the current clock and its payload unchanged |
| Process.ProcessBase.SendVector | process_base.h:74-80 | the clock rises by exactly one for the whole batch; every element carries the new clock; the batch goes out in one send |
| Process.ProcessBase.BroadcastVector | process_base.h:83-92 | the clock rises by exactly one; every element carries the new clock; the batch goes to every scope rank except the own rank, in scope order |
| Process.ProcessBase.Receive | process_base.h:95-108 | a buffer hit returns the buffered entry, removes it and uses no transport receive; a miss leaves the buffer alone and takes the transport's message; the clock becomes `max(old clock, timestamp) + 1` either way |
| Process.ProcessBase.ReceiveAny | process_base.h:111-113 | the same as `Receive` with the any-source filter |
| Process.ProcessBase.ReceiveVector | process_base.h:116-127 | an undefined or zero probe is fatal, with no resize, receive or clock change; otherwise the destination has exactly the probed length and only its first element's timestamp feeds the clock |
| Process.ProcessBase.ReceiveVectorAny | process_base.h:130-132 | the same as `ReceiveVector` with the any-source filter |
| Process.ProcessBase.ReceiveMultiTagHandle | process_base.h:25-41 | with a handler for the arriving tag, the clock rule applies, the handler runs once, true is returned and the buffer is unchanged; without one, exactly that entry is appended, the clock is unchanged and false is returned |
| Scenarios.CausalDelivery | process_base.h:57-106 | after any number of local events on either side, with nothing buffered at the receiver, receiving a sent message ends at a clock strictly above the clock of the send |
| Scenarios.BufferTransparency | process_base.h:96-106 | a message taken from the buffer gives the same payload, status and clock as the same message taken from the transport |
| Scenarios.DispatchRouting | process_base.h:33-40 | with a handler for tag 3 only: a tag-4 message is buffered without a clock change; a tag-3 message fires the handler; a later typed receive for tag 4 gets the buffered message and empties the buffer |
| Scenarios.FatalProbe | process_base.h:118-120 | an undefined or zero probe gives the fatal outcome, with the clock and the destination untouched |
| Scenarios.BroadcastFromMiddle | process_base.h:64-71 | scope 2, 5, 7 at rank 5 sends to 2 then 7, and the clock advances by exactly one |

## Left out

- The MPI transport `mpl::communicator` (process_base.h:5, 15, 32, 60, 103, 118, 123) is a foreign library. What it would deliver or probe is a method parameter. Its sends and receives are entries of the ghost logs `transmitted` and `deliveries`.
- A delivered message is not constrained to match the requested source and tag. The transport guarantees that, and no contract here depends on it.
- Process.ProcessBase.ReceiveVector: it requires the transport to deliver exactly the probed number of elements. The source relies on the same thing, because it receives into a vector resized to the probed count. MPI's truncation error when more elements arrive is not modelled.
- Process.ProcessBase.ReceiveVectorAny: it carries the same requirement. Here the probe and the receive both use `any_source` (process_base.h:130-132), so they could see different messages of different lengths. That mismatch is not modelled.
- `exit(EXIT_FAILURE)` (process_base.h:120) is the distinguished result `Fatal`. The process does not actually terminate.
- The destination vector of `receiveVector` is resized in place in the source. The model returns a fresh array of the probed length, and on the fatal path returns the untouched destination.
- Messages are values. `send` and `broadcast` stamp the caller's message in place; the model returns the stamped message instead. Vectors are arrays and are stamped in place.
- `new`, `delete` and `static_cast` (process_base.h:39, 100-101) are not modelled. Buffered messages are values in a sequence, so ownership transfer is not modelled.
- The `std::function` handlers (process_base.h:28-29, 36) are a set of tags. Each invocation is an entry in the ghost log `handled`. Whatever a handler itself does is not modelled.
- `receiveMultiTag` (process_base.h:134-138) is only declared; its body is not part of this model.
- `log` and `printf` (process_base.h:49-54) and the diagnostic label `tag` (process_base.h:14) are diagnostic output.
- The pure-virtual `run` (process_base.h:142) belongs to the algorithm layer. The constructor's communicator and label arguments (process_base.h:141) are not modelled.
- The clock is an unbounded natural number. The source's 32-bit `int` could overflow after 2^31 - 1 events, which is undefined behaviour in C++; this is not modelled.
- Message payloads are an abstract sequence of integers. The concrete message types of the algorithm layer are not modelled.
