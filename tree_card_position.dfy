/** Where the edit card opens next to an item (utils/treeCardPosition.js), as
    pixel offsets from the item's marker, chosen from the item's position in
    percent of the garden. */
module TreeCardPosition {

  datatype Offset = Offset(left: int, top: int)

  /** `calculateCardPosition(item, isAdmin)` */
  function CardPosition(x: real, y: real, isAdmin: bool := false): (p: Offset)
    ensures p.left == 35 || p.left == 25 || p.left == -240
    ensures p.top == 0 || p.top == -60 || p.top == -120 || p.top == -180
  {
    var left := if x < 30.0 then 35 else if x > 70.0 then -240 else 25;
    var top := if y < 25.0 then 0 else if y > 75.0 then (if isAdmin then -180 else -120) else -60;
    Offset(left, top)
  }

  /** The card opens to the right of the item unless the item is in the right
      30 percent, and it opens at or above the item's top everywhere. */
  lemma CardSide(x: real, y: real, isAdmin: bool)
    ensures CardPosition(x, y, isAdmin).left > 0 <==> x <= 70.0
    ensures CardPosition(x, y, isAdmin).top <= 0
    ensures CardPosition(x, y, isAdmin).top == 0 <==> y < 25.0
  {
  }

  /** Moving an item right or down never moves its card right or down: the card
      shifts away from the edge the item approaches. */
  lemma CardMonotone(x1: real, y1: real, x2: real, y2: real, isAdmin: bool)
    requires x1 <= x2 && y1 <= y2
    ensures CardPosition(x2, y2, isAdmin).left <= CardPosition(x1, y1, isAdmin).left
    ensures CardPosition(x2, y2, isAdmin).top <= CardPosition(x1, y1, isAdmin).top
  {
  }

  /** The horizontal offset does not depend on the role or on y, and the admin's
      taller card is lifted at least as far as the viewer's. */
  lemma AdminCardHigher(x: real, y: real)
    ensures CardPosition(x, y, true).left == CardPosition(x, y, false).left
    ensures CardPosition(x, y, true).top <= CardPosition(x, y, false).top
    ensures CardPosition(x, y, true).top != CardPosition(x, y, false).top <==> y > 75.0
  {
  }
}
