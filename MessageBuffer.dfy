/** The out-of-order message buffer: entries in arrival order, and the
    filtered removal that a typed receive performs on it. */
module MessageBuffer {
  import opened Messages

  /** An entry satisfies a fetch request when its source is the requested rank
      (or the request is for any source) and its tag is one of `tags`. */
  predicate Matches(e: Entry, source: Source, tags: seq<int>) {
    (source.AnySource? || e.status.source == source.rank) && e.status.tag in tags
  }

  /** The position of the first entry, in list order, that satisfies the
      request, or `None` when no entry does. */
  function FirstMatch(buffer: seq<Entry>, source: Source, tags: seq<int>): (r: Option<nat>)
    ensures r.Some? ==> r.value < |buffer| && Matches(buffer[r.value], source, tags)
    ensures r.Some? ==> forall j :: 0 <= j < r.value ==> !Matches(buffer[j], source, tags)
    ensures r.None? <==> forall j :: 0 <= j < |buffer| ==> !Matches(buffer[j], source, tags)
    decreases |buffer|
  {
    if buffer == [] then None
    else if Matches(buffer[0], source, tags) then Some(0)
    else match FirstMatch(buffer[1..], source, tags)
      case None => None
      case Some(i) => Some(i + 1)
  }

  /** The buffer with the entry at position `i` unlinked; the others keep
      their order. */
  function RemoveAt(buffer: seq<Entry>, i: nat): (r: seq<Entry>)
    requires i < |buffer|
    ensures |r| == |buffer| - 1
    ensures forall j :: 0 <= j < |r| ==> r[j] == if j < i then buffer[j] else buffer[j + 1]
    ensures multiset(r) + multiset{buffer[i]} == multiset(buffer)
  {
    assert buffer == buffer[..i] + [buffer[i]] + buffer[i + 1..];
    buffer[..i] + buffer[i + 1..]
  }

  /** What `fetchFromBuffer` hands back: the entry it found, if any, and the
      buffer left behind. */
  datatype Fetched = Fetched(found: Option<Entry>, rest: seq<Entry>)

  /** `fetchFromBuffer`: remove and return the first entry that satisfies the
      request; on a miss the buffer stays as it is. */
  function Fetch(buffer: seq<Entry>, source: Source, tags: seq<int>): (r: Fetched)
    ensures r.found.None? <==> forall j :: 0 <= j < |buffer| ==> !Matches(buffer[j], source, tags)
    ensures r.found.None? ==> r.rest == buffer
    ensures r.found.Some? ==> Matches(r.found.value, source, tags)
    ensures r.found.Some? ==> multiset(r.rest) + multiset{r.found.value} == multiset(buffer)
    ensures r.found.Some? ==>
      exists i :: 0 <= i < |buffer| && buffer[i] == r.found.value
        && r.rest == buffer[..i] + buffer[i + 1..]
        && forall j :: 0 <= j < i ==> !Matches(buffer[j], source, tags)
  {
    match FirstMatch(buffer, source, tags)
    case None => Fetched(None, buffer)
    case Some(i) => Fetched(Some(buffer[i]), RemoveAt(buffer, i))
  }

  /** Appending an entry never changes which earlier entry is found first; the
      new entry is found only when nothing before it matches. */
  lemma {:induction false} FirstMatchAfterStore(buffer: seq<Entry>, e: Entry, source: Source, tags: seq<int>)
    ensures FirstMatch(buffer + [e], source, tags) ==
      match FirstMatch(buffer, source, tags)
      case Some(i) => Some(i)
      case None => if Matches(e, source, tags) then Some(|buffer|) else None
    decreases |buffer|
  {
    if buffer != [] {
      assert (buffer + [e])[0] == buffer[0];
      assert (buffer + [e])[1..] == buffer[1..] + [e];
      FirstMatchAfterStore(buffer[1..], e, source, tags);
    }
  }

  /** A stored entry is handed back by the next request it satisfies, provided
      no earlier entry satisfies it, and the buffer returns to what it was. */
  lemma StoreThenFetch(buffer: seq<Entry>, e: Entry, source: Source, tags: seq<int>)
    requires forall j :: 0 <= j < |buffer| ==> !Matches(buffer[j], source, tags)
    requires Matches(e, source, tags)
    ensures Fetch(buffer + [e], source, tags) == Fetched(Some(e), buffer)
  {
    FirstMatchAfterStore(buffer, e, source, tags);
    assert (buffer + [e])[..|buffer|] == buffer;
  }

  /** Storing behind a buffer that already satisfies a request does not change
      what the request gets; the new entry stays at the end of what is left. */
  lemma StoreBehindHit(buffer: seq<Entry>, e: Entry, source: Source, tags: seq<int>)
    requires FirstMatch(buffer, source, tags).Some?
    ensures Fetch(buffer + [e], source, tags).found == Fetch(buffer, source, tags).found
    ensures Fetch(buffer + [e], source, tags).rest == Fetch(buffer, source, tags).rest + [e]
  {
    FirstMatchAfterStore(buffer, e, source, tags);
    var i := FirstMatch(buffer, source, tags).value;
    assert FirstMatch(buffer + [e], source, tags) == Some(i);
    assert (buffer + [e])[i] == buffer[i];
    RemoveBeforeLast(buffer, e, i);
  }

  lemma RemoveBeforeLast(buffer: seq<Entry>, e: Entry, i: nat)
    requires i < |buffer|
    ensures RemoveAt(buffer + [e], i) == RemoveAt(buffer, i) + [e]
  {
    var s := buffer + [e];
    assert s[..i] == buffer[..i];
    assert s[i + 1..] == buffer[i + 1..] + [e];
    assert RemoveAt(s, i) == s[..i] + s[i + 1..];
    assert RemoveAt(buffer, i) == buffer[..i] + buffer[i + 1..];
  }
}
