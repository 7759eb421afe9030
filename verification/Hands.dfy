/** A player's hand (hand.cpp): membership looks at single ids, removal at multiplicities. */
module Hands {
  import opened Lists
  import opened Cards

  datatype Removal = Removed(rest: seq<CardId>) | Missing

  /** The hand without the first copy of `id`. */
  function Without(hand: seq<CardId>, id: CardId): (r: seq<CardId>)
    ensures id in hand ==> |r| == |hand| - 1
    ensures id !in hand ==> r == hand
  {
    if hand == [] then [] else if hand[0] == id then hand[1..] else [hand[0]] + Without(hand[1..], id)
  }

  /** Takes the ids out one after another; fails at the first that is not left. */
  function RemoveEach(hand: seq<CardId>, ids: seq<CardId>): Removal
    decreases |ids|
  {
    if ids == [] then Removed(hand)
    else if ids[0] !in hand then Missing
    else RemoveEach(Without(hand, ids[0]), ids[1..])
  }

  /** The hand after a removal whose result is ignored: unchanged if the removal fails. */
  function HandAfter(hand: seq<CardId>, ids: seq<CardId>): seq<CardId> {
    match RemoveEach(hand, ids)
    case Removed(rest) => rest
    case Missing => hand
  }

  predicate ContainsAll(hand: seq<CardId>, query: seq<CardId>) {
    forall i :: 0 <= i < |query| ==> query[i] in hand
  }

  class Hand {
    var cards: seq<CardId>

    constructor (cards: seq<CardId>)
      ensures this.cards == cards
    {
      this.cards := cards;
    }

    method Add(card: CardId)
      modifies this
      ensures cards == old(cards) + [card]
    {
      cards := cards + [card];
    }

    method AddAll(more: seq<CardId>)
      modifies this
      ensures cards == old(cards) + more
    {
      cards := cards + more;
    }

    method Remove(toRemove: seq<CardId>) returns (ok: bool)
      modifies this
      ensures ok <==> RemoveEach(old(cards), toRemove).Removed?
      ensures cards == HandAfter(old(cards), toRemove)
    {
      var temp := cards;
      for i := 0 to |toRemove|
        invariant RemoveEach(cards, toRemove) == RemoveEach(temp, toRemove[i..])
        invariant cards == old(cards)
      {
        if toRemove[i] !in temp {
          return false;
        }
        temp := Without(temp, toRemove[i]);
      }
      cards := temp;
      return true;
    }

    method Contains(query: seq<CardId>) returns (all: bool)
      ensures all <==> ContainsAll(cards, query)
    {
      for i := 0 to |query|
        invariant forall k :: 0 <= k < i ==> query[k] in cards
      {
        if query[i] !in cards {
          return false;
        }
      }
      return true;
    }
  }

  // ----- what removal does to the cards -----

  lemma {:induction false} WithoutBag(hand: seq<CardId>, id: CardId)
    requires id in hand
    ensures multiset(Without(hand, id)) == multiset(hand) - multiset{id}
  {
    assert hand == [hand[0]] + hand[1..];
    if hand[0] != id {
      WithoutBag(hand[1..], id);
    }
  }

  /** Removal succeeds exactly when the hand holds the ids with their multiplicities, and then it
      takes out exactly those. */
  lemma {:induction false} RemoveEachBag(hand: seq<CardId>, ids: seq<CardId>)
    ensures RemoveEach(hand, ids).Removed? <==> multiset(ids) <= multiset(hand)
    ensures RemoveEach(hand, ids).Removed? ==> multiset(RemoveEach(hand, ids).rest) + multiset(ids) == multiset(hand)
    decreases |ids|
  {
    if ids != [] {
      assert ids == [ids[0]] + ids[1..];
      if ids[0] in hand {
        WithoutBag(hand, ids[0]);
        RemoveEachBag(Without(hand, ids[0]), ids[1..]);
        BagStep(multiset(hand), multiset(ids[1..]), ids[0]);
      } else {
        assert multiset(ids)[ids[0]] > 0;
      }
    }
  }

  lemma BagStep(h: multiset<CardId>, rest: multiset<CardId>, x: CardId)
    requires x in h
    ensures rest <= h - multiset{x} <==> multiset{x} + rest <= h
  {
  }

  /** `contains` does not see duplicates: of the lists it admits against a duplicate-free hand,
      `remove` takes exactly the duplicate-free ones. */
  lemma AdmittedIsRemovedIffDistinct(hand: seq<CardId>, ids: seq<CardId>)
    requires NoDuplicates(hand) && ContainsAll(hand, ids)
    ensures RemoveEach(hand, ids).Removed? <==> NoDuplicates(ids)
    ensures ids != [] ==> (multiset(HandAfter(hand, ids)) + multiset(ids) == multiset(hand) <==> NoDuplicates(ids))
  {
    RemoveEachBag(hand, ids);
    if NoDuplicates(ids) {
      forall x
        ensures multiset(ids)[x] <= multiset(hand)[x]
      {
        CountOnce(ids, x);
        CountOnce(hand, x);
      }
    } else {
      var i, j :| 0 <= i < j < |ids| && ids[i] == ids[j];
      CountTwice(ids, i, j);
      CountOnce(hand, ids[i]);
      assert !(multiset(ids) <= multiset(hand));
    }
    if ids != [] && HandAfter(hand, ids) == hand {
      assert ids[0] in multiset(ids);
      assert (multiset(hand) + multiset(ids))[ids[0]] > multiset(hand)[ids[0]];
    }
  }

  /** A list that names one card twice is admitted and leaves the hand as it was. */
  lemma DuplicateLeavesHand()
    ensures ContainsAll([7, 9], [7, 7]) && HandAfter([7, 9], [7, 7]) == [7, 9]
  {
    assert Without([7, 9], 7) == [9];
    assert RemoveEach([9], [7]) == Missing;
  }

  /** The cards of a list that satisfy a condition, in their order. */
  function Keeping(hand: seq<CardId>, gone: set<CardId>): seq<CardId> {
    if hand == [] then [] else (if hand[0] in gone then [] else [hand[0]]) + Keeping(hand[1..], gone)
  }

  lemma {:induction false} KeepingNone(hand: seq<CardId>)
    ensures Keeping(hand, {}) == hand
  {
    if hand != [] {
      KeepingNone(hand[1..]);
    }
  }

  lemma {:induction false} KeepingWithout(hand: seq<CardId>, id: CardId, gone: set<CardId>)
    requires NoDuplicates(hand)
    ensures Keeping(Without(hand, id), gone) == Keeping(hand, gone + {id})
  {
    if hand != [] {
      if hand[0] == id {
        assert id !in hand[1..];
        KeepingAbsent(hand[1..], id, gone);
      } else {
        KeepingWithout(hand[1..], id, gone);
        assert ([hand[0]] + Without(hand[1..], id))[1..] == Without(hand[1..], id);
      }
    }
  }

  lemma {:induction false} KeepingAbsent(hand: seq<CardId>, id: CardId, gone: set<CardId>)
    requires id !in hand
    ensures Keeping(hand, gone + {id}) == Keeping(hand, gone)
  {
    if hand != [] {
      KeepingAbsent(hand[1..], id, gone);
    }
  }

  lemma {:induction false} WithoutDistinct(hand: seq<CardId>, id: CardId)
    requires NoDuplicates(hand)
    ensures NoDuplicates(Without(hand, id)) && forall x :: x in Without(hand, id) ==> x in hand
  {
    if hand != [] && hand[0] != id {
      WithoutDistinct(hand[1..], id);
      var rest := Without(hand[1..], id);
      forall i | 0 <= i < |rest|
        ensures rest[i] != hand[0]
      {
        assert rest[i] in hand[1..];
      }
    }
  }

  /** Removing cards from a hand without duplicates leaves the others in their order. */
  lemma {:induction false} RemovalKeepsOrder(hand: seq<CardId>, ids: seq<CardId>)
    requires NoDuplicates(hand) && RemoveEach(hand, ids).Removed?
    ensures RemoveEach(hand, ids).rest == Keeping(hand, Members(ids))
    decreases |ids|
  {
    hide Keeping, Without, NoDuplicates, Members;
    if ids == [] {
      NoMembers();
      KeepingNone(hand);
    } else {
      WithoutDistinct(hand, ids[0]);
      RemovalKeepsOrder(Without(hand, ids[0]), ids[1..]);
      KeepingWithout(hand, ids[0], Members(ids[1..]));
      FirstMember(ids);
    }
  }

  function Members(ids: seq<CardId>): set<CardId> {
    set x | x in ids
  }

  lemma NoMembers()
    ensures Members([]) == {}
  {
  }

  lemma FirstMember(ids: seq<CardId>)
    requires ids != []
    ensures Members(ids) == Members(ids[1..]) + {ids[0]}
  {
    assert ids == [ids[0]] + ids[1..];
  }
}
