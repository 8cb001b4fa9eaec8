/** Paging through the garden cards (screens/GardensListScreen.js, goToPrevious
    and goToNext). A viewer pages round the n gardens; an admin pages round
    n + 1 cards, the last being the "add new" card. After each step the screen
    preloads the garden one further step on in the same direction. */
module Carousel {
  import opened Js

  /** The number of cards a user pages through. */
  function Cards(admin: bool, n: nat): nat {
    if admin then n + 1 else n
  }

  /** The card shown after "next" from card i of n gardens. */
  function Next(admin: bool, i: int, n: nat): int {
    if admin then (if i == n then 0 else i + 1)
    else (if i == n - 1 then 0 else i + 1)
  }

  /** The card shown after "previous" from card i of n gardens. */
  function Prev(admin: bool, i: int, n: nat): int {
    if admin then (if i == 0 then n else i - 1)
    else (if i == 0 then n - 1 else i - 1)
  }

  /** Paging stays on a card; "next" moves one card on and wraps from the last
      card to the first, and "previous" undoes "next" and the other way round. */
  lemma PrevNextInverse(admin: bool, i: int, n: nat)
    requires 0 <= i < Cards(admin, n)
    ensures 0 <= Next(admin, i, n) < Cards(admin, n) && 0 <= Prev(admin, i, n) < Cards(admin, n)
    ensures Next(admin, i, n) == if i == Cards(admin, n) - 1 then 0 else i + 1
    ensures Prev(admin, Next(admin, i, n), n) == i && Next(admin, Prev(admin, i, n), n) == i
  {
  }

  /** Pressing "next" k times. */
  function NextSteps(admin: bool, i: int, n: nat, k: nat): int {
    if k == 0 then i else Next(admin, NextSteps(admin, i, n, k - 1), n)
  }

  /** Before the wrap, k presses move k cards on. */
  lemma {:induction false} NextStepsWithin(admin: bool, i: int, n: nat, k: nat)
    requires 0 <= i && i + k < Cards(admin, n)
    ensures NextSteps(admin, i, n, k) == i + k
  {
    if k > 0 {
      NextStepsWithin(admin, i, n, k - 1);
    }
  }

  /** a presses and then b presses are a + b presses. */
  lemma {:induction false} NextStepsAdd(admin: bool, i: int, n: nat, a: nat, b: nat)
    ensures NextSteps(admin, NextSteps(admin, i, n, a), n, b) == NextSteps(admin, i, n, a + b)
  {
    if b > 0 {
      NextStepsAdd(admin, i, n, a, b - 1);
    }
  }

  /** Every card is reached from every card, and a full round of presses comes
      back to the start. */
  lemma {:induction false} EveryCardReached(admin: bool, i: int, j: int, n: nat)
    requires 0 <= i < Cards(admin, n) && 0 <= j < Cards(admin, n)
    ensures var c := Cards(admin, n);
      NextSteps(admin, i, n, if i <= j then j - i else c - i + j) == j && NextSteps(admin, i, n, c) == i
  {
    var c := Cards(admin, n);
    // c - i presses reach the first card
    NextStepsWithin(admin, i, n, c - 1 - i);
    assert NextSteps(admin, i, n, c - i) == 0;
    NextStepsAdd(admin, i, n, c - i, i);
    NextStepsWithin(admin, 0, n, i);
    if i <= j {
      NextStepsWithin(admin, i, n, j - i);
    } else {
      NextStepsAdd(admin, i, n, c - i, j);
      NextStepsWithin(admin, 0, n, j);
    }
  }

  /** The garden index preloaded after a step onto card `shown`: for a viewer
      the card one further step on; for an admin the same, but only when the
      card shown is a garden (not the first card when going back) and the
      preloaded card is a garden. */
  function PreloadIndex(admin: bool, forward: bool, shown: int, n: nat): (t: Option<int>)
    ensures t.Some? ==> 0 <= t.value < n
    ensures t.Some? ==> t.value == (if forward then Next(admin, shown, n) else Prev(admin, shown, n))
    ensures !admin && 0 <= shown < n ==> t.Some?
    ensures admin && forward && 0 <= shown ==> (t.Some? <==> shown + 1 < n)
    ensures admin && !forward ==> (t.Some? <==> 0 < shown < n)
  {
    if !admin then
      var k := if forward then (if shown == n - 1 then 0 else shown + 1) else (if shown == 0 then n - 1 else shown - 1);
      if 0 <= k < n then Some(k) else None
    else if forward then
      if shown < n then
        var k := if shown == n then 0 else shown + 1;
        if 0 <= k < n then Some(k) else None
      else None
    else
      if shown > 0 && shown < n then
        var k := if shown == 0 then n else shown - 1;
        if 0 <= k < n then Some(k) else None
      else None
  }
}
