/** The broadcast scope: which ranks a broadcast reaches, and in which order. */
module Scope {
  import opened Messages

  /** The ranks of `scope` other than `self`, in scope order. A rank listed
      twice is sent to twice. */
  function Recipients(scope: seq<int>, self: int): (r: seq<int>)
    ensures |r| <= |scope|
    ensures self !in r
    decreases |scope|
  {
    if scope == [] then []
    else (if scope[0] == self then [] else [scope[0]]) + Recipients(scope[1..], self)
  }

  /** Every other rank of the scope is a recipient exactly as often as the
      scope lists it, and the recipients are exactly the other ranks. */
  lemma {:induction false} RecipientsCount(scope: seq<int>, self: int)
    ensures forall x :: x != self ==> multiset(Recipients(scope, self))[x] == multiset(scope)[x]
    ensures forall x :: x in Recipients(scope, self) <==> x in scope && x != self
    decreases |scope|
  {
    if scope != [] {
      RecipientsCount(scope[1..], self);
      assert scope == [scope[0]] + scope[1..];
      var head := if scope[0] == self then [] else [scope[0]];
      assert Recipients(scope, self) == head + Recipients(scope[1..], self);
      assert multiset(scope) == multiset{scope[0]} + multiset(scope[1..]);
      assert multiset(Recipients(scope, self)) == multiset(head) + multiset(Recipients(scope[1..], self));
      forall x | x != self
        ensures multiset(Recipients(scope, self))[x] == multiset(scope)[x]
      {
      }
      forall x
        ensures x in Recipients(scope, self) <==> x in scope && x != self
      {
        assert x in Recipients(scope, self) <==> multiset(Recipients(scope, self))[x] > 0;
        assert x in scope <==> multiset(scope)[x] > 0;
      }
    }
  }

  /** Recipients of a concatenated scope are those of each part, in order. */
  lemma {:induction false} RecipientsAppend(a: seq<int>, b: seq<int>, self: int)
    ensures Recipients(a + b, self) == Recipients(a, self) + Recipients(b, self)
    decreases |a|
  {
    if a == [] {
      assert a + b == b;
    } else {
      var c := a + b;
      assert c[0] == a[0];
      assert c[1..] == a[1..] + b;
      RecipientsAppend(a[1..], b, self);
      var rest, tail := Recipients(a[1..], self), Recipients(b, self);
      if a[0] == self {
        assert Recipients(c, self) == [] + (rest + tail) == rest + tail;
        assert Recipients(a, self) == [] + rest == rest;
      } else {
        assert Recipients(c, self) == [a[0]] + (rest + tail);
        assert Recipients(a, self) == [a[0]] + rest;
        assert [a[0]] + (rest + tail) == ([a[0]] + rest) + tail;
      }
    }
  }

  /** The transport calls made when the batch `messages` is sent on `tag` to
      each of `recipients` in turn. */
  function SendsTo(recipients: seq<int>, tag: int, messages: seq<Message>): (r: seq<Transmission>)
    ensures |r| == |recipients|
    ensures forall i :: 0 <= i < |r| ==> r[i].recipient == recipients[i]
    ensures forall i :: 0 <= i < |r| ==> r[i].tag == tag && r[i].messages == messages
    decreases |recipients|
  {
    if recipients == [] then []
    else [Transmission(recipients[0], tag, messages)] + SendsTo(recipients[1..], tag, messages)
  }

  lemma {:induction false} SendsToAppend(a: seq<int>, b: seq<int>, tag: int, messages: seq<Message>)
    ensures SendsTo(a + b, tag, messages) == SendsTo(a, tag, messages) + SendsTo(b, tag, messages)
    decreases |a|
  {
    if a == [] {
      assert a + b == b;
    } else {
      assert (a + b)[0] == a[0];
      assert (a + b)[1..] == a[1..] + b;
      SendsToAppend(a[1..], b, tag, messages);
    }
  }

  /** One step of the broadcast loop: the next scope entry adds one send,
      unless it is the broadcaster's own rank. */
  lemma NextRecipient(scope: seq<int>, i: nat, self: int, tag: int, messages: seq<Message>)
    requires i < |scope|
    ensures SendsTo(Recipients(scope[..i + 1], self), tag, messages) ==
      SendsTo(Recipients(scope[..i], self), tag, messages) +
      (if scope[i] == self then [] else [Transmission(scope[i], tag, messages)])
  {
    assert scope[..i + 1] == scope[..i] + [scope[i]];
    RecipientsAppend(scope[..i], [scope[i]], self);
    assert Recipients([scope[i]], self) == if scope[i] == self then [] else [scope[i]];
    SendsToAppend(Recipients(scope[..i], self), Recipients([scope[i]], self), tag, messages);
  }

  /** A scope {2, 5, 7} seen from rank 5 reaches 2 and then 7. */
  lemma SelfExcludedExample()
    ensures Recipients([2, 5, 7], 5) == [2, 7]
  {
  }
}
