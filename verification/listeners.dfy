/**
 The listener registry of GetContactsUseCase: a Kotlin `mutableListOf`
 that `subscribeListener` appends to and `unsubscribeListener` removes the
 first equal element from. Here the list is an immutable `seq` and each
 operation returns the new list.
 */
module Listeners {

  /** The position of the first occurrence of `l` in `ls`. */
  function FirstIndex<L(==)>(ls: seq<L>, l: L): (i: nat)
    requires l in ls
    ensures i < |ls| && ls[i] == l
    ensures forall k :: 0 <= k < i ==> ls[k] != l
  {
    if ls[0] == l then 0
    else
      assert ls[1..][FirstIndex(ls[1..], l)] == l;
      FirstIndex(ls[1..], l) + 1
  }

  /** How many times `l` occurs in `ls`. */
  function Occurrences<L(==)>(ls: seq<L>, l: L): nat
  {
    multiset(ls)[l]
  }

  /** `listeners.add(listener)`: append at the end, keep every earlier entry. */
  function Subscribe<L>(ls: seq<L>, l: L): (r: seq<L>)
    ensures |r| == |ls| + 1
    ensures r[..|ls|] == ls
    ensures r[|ls|] == l
  {
    ls + [l]
  }

  /**
   `listeners.remove(listener)`: drop the first element equal to `l`, keep
   the relative order of the rest, and leave the list alone when `l` is
   absent.
   */
  function Unsubscribe<L(==)>(ls: seq<L>, l: L): (r: seq<L>)
    ensures l !in ls ==> r == ls
    ensures |r| == if l in ls then |ls| - 1 else |ls|
  {
    if |ls| == 0 then []
    else
      if ls[0] == l then ls[1..]
      else [ls[0]] + Unsubscribe(ls[1..], l)
  }

  /** With no `l` in front of it, the `l` after `front` is the one dropped. */
  lemma {:induction false} UnsubscribeSplit<L>(front: seq<L>, l: L, back: seq<L>)
    requires l !in front
    ensures Unsubscribe(front + [l] + back, l) == front + back
  {
    var ls := front + [l] + back;
    if |front| == 0 {
      assert ls == [l] + back;
      assert ls[1..] == back;
    } else {
      assert ls[0] == front[0];
      assert ls[1..] == front[1..] + [l] + back;
      UnsubscribeSplit(front[1..], l, back);
      assert front + back == [front[0]] + (front[1..] + back);
    }
  }

  /** The entry `Unsubscribe` drops is the first occurrence; the rest keep their order. */
  lemma UnsubscribeRemovesFirst<L>(ls: seq<L>, l: L)
    requires l in ls
    ensures Unsubscribe(ls, l) == ls[..FirstIndex(ls, l)] + ls[FirstIndex(ls, l) + 1..]
  {
    var i := FirstIndex(ls, l);
    assert ls == ls[..i] + [l] + ls[i + 1..];
    UnsubscribeSplit(ls[..i], l, ls[i + 1..]);
  }

  /** As a multiset, unsubscribing takes away one `l` if there is one, and nothing else. */
  lemma {:induction false} UnsubscribeMultiset<L>(ls: seq<L>, l: L)
    ensures multiset(Unsubscribe(ls, l)) == multiset(ls) - multiset{l}
  {
    if |ls| > 0 {
      var tail := ls[1..];
      assert ls == [ls[0]] + tail;
      assert multiset(ls) == multiset{ls[0]} + multiset(tail);
      if ls[0] != l {
        UnsubscribeMultiset(tail, l);
        assert Unsubscribe(ls, l) == [ls[0]] + Unsubscribe(tail, l);
      }
    }
  }

  /** Unsubscribing a listener that was not yet registered undoes its subscription. */
  lemma UnsubscribeUndoesFreshSubscribe<L>(ls: seq<L>, l: L)
    requires l !in ls
    ensures Unsubscribe(Subscribe(ls, l), l) == ls
  {
    var s := Subscribe(ls, l);
    assert l in s;
    assert s[..|ls|] == ls;
    assert FirstIndex(s, l) == |ls|;
    UnsubscribeRemovesFirst(s, l);
  }

  /**
   Subscribing a listener that is already registered and then unsubscribing it
   removes the EARLIER entry: the fresh one stays at the end.
   */
  lemma UnsubscribeAfterDuplicateSubscribe<L>(ls: seq<L>, l: L)
    requires l in ls
    ensures Unsubscribe(Subscribe(ls, l), l) == Subscribe(Unsubscribe(ls, l), l)
  {
    var s := Subscribe(ls, l);
    var i := FirstIndex(ls, l);
    assert s[..i] == ls[..i];
    assert FirstIndex(s, l) == i;
    assert s[i + 1..] == ls[i + 1..] + [l];
    UnsubscribeRemovesFirst(s, l);
    UnsubscribeRemovesFirst(ls, l);
  }

  /** Unsubscribing removes exactly one registration of `l` when there is one. */
  lemma UnsubscribeDropsOneOccurrence<L>(ls: seq<L>, l: L)
    ensures Occurrences(Unsubscribe(ls, l), l) == if l in ls then Occurrences(ls, l) - 1 else 0
  {
    UnsubscribeMultiset(ls, l);
  }

  /** A listener registered once is gone after it unsubscribes; nobody else is affected. */
  lemma UnsubscribeMembership<L>(ls: seq<L>, l: L, x: L)
    ensures x != l ==> (x in Unsubscribe(ls, l) <==> x in ls)
    ensures Occurrences(ls, l) <= 1 ==> l !in Unsubscribe(ls, l)
  {
    var r := Unsubscribe(ls, l);
    UnsubscribeMultiset(ls, l);
    assert x in r <==> x in multiset(r);
    assert x in ls <==> x in multiset(ls);
  }
}
