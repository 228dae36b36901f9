/** Paging a decision deck until a card is on top (e2e/decision-deck-fixtures.ts:99-116). */
module Deck {

  /** One click: Next, or Previous once Next is disabled on the last card. */
  function Click(cards: nat, position: nat): nat
    requires position < cards
  {
    if position == cards - 1 then (if position == 0 then 0 else position - 1) else position + 1
  }

  function After(cards: nat, position: nat, clicks: nat): (p: nat)
    requires position < cards
    ensures p < cards
  {
    if clicks == 0 then position else Click(cards, After(cards, position, clicks - 1))
  }

  /** Whether the loop ever brings the target to the top. */
  predicate Reachable(cards: nat, position: nat, target: nat) {
    target >= position || (position == cards - 1 && target == cards - 2)
  }

  function Clicks(position: nat, target: nat): nat {
    if target >= position then target - position else 1
  }

  /** On the way to the last card the loop only goes forward. */
  lemma {:induction false} Forward(cards: nat, position: nat, clicks: nat)
    requires position < cards && position + clicks < cards
    ensures After(cards, position, clicks) == position + clicks
  {
    if clicks > 0 {
      Forward(cards, position, clicks - 1);
    }
  }

  /** From the last card on it alternates between the last two forever. */
  lemma {:induction false} Alternates(cards: nat, position: nat, extra: nat)
    requires position < cards && cards > 1
    ensures After(cards, position, cards - 1 - position + extra) == if extra % 2 == 0 then cards - 1 else cards - 2
  {
    if extra == 0 {
      Forward(cards, position, cards - 1 - position);
    } else {
      Alternates(cards, position, extra - 1);
    }
  }

  /** The target comes up after exactly the expected clicks and not before, or it never comes up. */
  lemma {:induction false} ReachedExactlyWhen(cards: nat, position: nat, target: nat, clicks: nat)
    requires position < cards && target < cards
    ensures Reachable(cards, position, target) ==>
              After(cards, position, Clicks(position, target)) == target
              && (clicks < Clicks(position, target) ==> After(cards, position, clicks) != target)
    ensures !Reachable(cards, position, target) ==> After(cards, position, clicks) != target
  {
    if target >= position {
      Forward(cards, position, target - position);
      if clicks < target - position {
        Forward(cards, position, clicks);
      }
    } else {
      assert After(cards, position, 0) == position;
      if position == cards - 1 {
        Alternates(cards, position, 1);
      }
      if position + clicks < cards {
        Forward(cards, position, clicks);
      } else {
        Alternates(cards, position, clicks - (cards - 1 - position));
      }
    }
  }

  /** Every card is reachable from the first one, and from anywhere in a deck of at most two. */
  lemma {:induction false} EasyDecks(cards: nat, position: nat, target: nat)
    requires position < cards && target < cards
    ensures position == 0 || cards <= 2 ==> Reachable(cards, position, target)
  {
  }

  /** The retried attempts, as many as the timeout allows: click unless on top, then look again. */
  method BringForward(cards: nat, start: nat, target: nat, attempts: nat)
    returns (shown: bool, clicks: nat, position: nat)
    requires start < cards && target < cards
    ensures shown <==> Reachable(cards, start, target) && attempts > 0 && Clicks(start, target) <= attempts
    ensures shown ==> clicks == Clicks(start, target) && position == target
    ensures !shown ==> clicks == attempts
    ensures position == After(cards, start, clicks)
  {
    shown, clicks, position := false, 0, start;
    for attempt := 0 to attempts
      invariant !shown && clicks == attempt && position == After(cards, start, clicks)
      invariant attempt > 0 ==> position != target
      invariant attempt > 0 && Reachable(cards, start, target) ==> clicks < Clicks(start, target)
    {
      ReachedExactlyWhen(cards, start, target, clicks);
      if position != target {
        position := Click(cards, position);
        clicks := clicks + 1;
        ReachedExactlyWhen(cards, start, target, clicks);
      }
      if position == target {
        shown := true;
        return;
      }
      if Reachable(cards, start, target) {
        StillShort(cards, start, target, clicks);
      }
    }
  }

  /** While the target has not come up, the expected clicks are not used up. */
  lemma {:induction false} StillShort(cards: nat, start: nat, target: nat, clicks: nat)
    requires start < cards && target < cards && Reachable(cards, start, target)
    requires clicks <= Clicks(start, target) && After(cards, start, clicks) != target
    ensures clicks < Clicks(start, target)
  {
    ReachedExactlyWhen(cards, start, target, clicks);
  }
}
