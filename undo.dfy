/** The undo stack of the garden screen (hooks/useUndo.js): the most recent
    actions, newest first and at most `maxStackSize` of them, and `undo`, which
    sends the write that reverses the newest action and pops it once that write
    has succeeded. */
module Undo {
  import opened Js
  import opened Items
  import opened ItemStore

  /** The actions the screen records, each with what its reversal needs. */
  datatype Action =
    | AddAction(item: Item)
    | DeleteAction(item: Item)
    | GenerateAction(ids: seq<string>, count: nat)
    | MoveAction(item: Item, oldX: real, oldY: real, newX: real, newY: real)
    | EditAction(item: Item, field: Field, oldValue: Value, newValue: Value)
    | AvatarAction(item: Item, oldAvatar: Value, oldImageUrl: string, newAvatar: Value, newImageUrl: string)

  /** `[action, ...stack].slice(0, max)` */
  function Push(stack: seq<Action>, a: Action, max: nat): (r: seq<Action>)
    ensures |r| == if |stack| + 1 < max then |stack| + 1 else max
    ensures max > 0 ==> r[0] == a
    ensures forall i :: 1 <= i < |r| ==> r[i] == stack[i - 1]
  {
    var s := [a] + stack;
    if |s| < max then s else s[..max]
  }

  function Reverse(s: seq<Action>): (r: seq<Action>)
    ensures |r| == |s| && forall i :: 0 <= i < |s| ==> r[i] == s[|s| - 1 - i]
  {
    if s == [] then [] else Reverse(s[1..]) + [s[0]]
  }

  /** The stack after recording `actions` in order, starting from `stack`. */
  function PushAll(stack: seq<Action>, actions: seq<Action>, max: nat): seq<Action>
    decreases |actions|
  {
    if actions == [] then stack else PushAll(Push(stack, actions[0], max), actions[1..], max)
  }

  /** Recording actions one by one on an empty stack keeps the newest `max` of
      them, newest first. */
  lemma {:induction false} PushAllKeepsNewest(actions: seq<Action>, max: nat)
    ensures PushAll([], actions, max) == Reverse(actions)[..if |actions| < max then |actions| else max]
  {
    PushAllFrom([], actions, max);
    assert Reverse(actions) + [] == Reverse(actions);
  }

  lemma {:induction false} PushAllFrom(stack: seq<Action>, actions: seq<Action>, max: nat)
    requires |stack| <= max
    ensures var all := Reverse(actions) + stack;
      PushAll(stack, actions, max) == all[..if |all| < max then |all| else max]
    decreases |actions|
  {
    if actions == [] {
      assert Reverse(actions) + stack == stack;
    } else {
      var s1 := Push(stack, actions[0], max);
      PushAllFrom(s1, actions[1..], max);
      var all := Reverse(actions) + stack;
      var all1 := Reverse(actions[1..]) + s1;
      var n := if |all| < max then |all| else max;
      var n1 := if |all1| < max then |all1| else max;
      assert Reverse(actions) == Reverse(actions[1..]) + [actions[0]];
      assert n1 == n;
      forall i | 0 <= i < n ensures all1[i] == all[i] {
        var k := |actions| - 1;
        if i >= k {
          if i == k {
            assert all[i] == actions[0];
            assert s1[0] == actions[0];
          } else {
            assert all[i] == stack[i - k - 1];
            assert s1[i - k] == stack[i - k - 1];
          }
        }
      }
      assert all1[..n1] == all[..n];
    }
  }

  // ---------------------------------------------------------------------------
  // Reversal

  /** `getTableName(item)` */
  function TableFor(it: Item): Table {
    TableOf(it.category)
  }

  /** The write the source sends to reverse an action: the opposite `is_active`
      for an add, a delete or a generated batch, the old position for a move, the
      old value into the column named by the field for an edit, and the old avatar
      for an avatar change. An owner edit is reversed in its owner column only.
      Kept to show the defect described in the findings; `Inverse` is the
      reversal the model uses. */
  function InverseAsWritten(a: Action): (ws: seq<Write>)
    ensures |ws| == 1 && ws[0].Update?
    ensures a.GenerateAction? ==> ws[0] == Update(Trees, a.ids, SetActive(false))
    ensures !a.GenerateAction? ==> ws[0].table == TableFor(a.item) && ws[0].ids == [a.item.id]
    ensures a.AddAction? || a.DeleteAction? ==> ws[0].change == SetActive(a.DeleteAction?)
    ensures a.MoveAction? ==> ws[0].change == SetPosition(a.oldX, a.oldY)
    ensures a.EditAction? ==> ws[0].change == SetColumn(FieldName(a.field), a.oldValue)
    ensures a.AvatarAction? ==> ws[0].change == SetColumn("custom_avatar", a.oldAvatar)
  {
    match a
    case AddAction(it) => [Update(TableFor(it), [it.id], SetActive(false))]
    case DeleteAction(it) => [Update(TableFor(it), [it.id], SetActive(true))]
    case GenerateAction(ids, _) => [Update(Trees, ids, SetActive(false))]
    case MoveAction(it, ox, oy, _, _) => [Update(TableFor(it), [it.id], SetPosition(ox, oy))]
    case EditAction(it, f, ov, _) => [Update(TableFor(it), [it.id], SetColumn(FieldName(f), ov))]
    case AvatarAction(it, ov, _, _, _) => [Update(TableFor(it), [it.id], SetColumn("custom_avatar", ov))]
  }

  /** An owner edit of a tree also set its status, so its reversal puts back the
      status the tree had (the one in the recorded snapshot) as well as the owner. */
  function Inverse(a: Action): (ws: seq<Write>)
    ensures !(a.EditAction? && a.field == OwnerField && a.item.category == Tree) ==> ws == InverseAsWritten(a)
    ensures |ws| >= 1 && ws[0] == InverseAsWritten(a)[0]
  {
    if a.EditAction? && a.field == OwnerField && a.item.category == Tree then
      InverseAsWritten(a) + [Update(Trees, [a.item.id], SetColumn("status", a.item.status))]
    else InverseAsWritten(a)
  }

  /** After reversing a delete or a generated batch the caller's refresh runs. */
  predicate RefreshesAfter(a: Action) {
    a.DeleteAction? || a.GenerateAction?
  }

  // ---------------------------------------------------------------------------
  // The effect of writes on one stored row

  /** The row with the given id in the given table after the writes, in order. */
  function ApplyWrites(row: Row, table: Table, id: string, ws: seq<Write>): Row
    decreases |ws|
  {
    if ws == [] then row
    else
      var w := ws[0];
      var row' := if w.Update? && w.table == table && id in w.ids then Apply(row, w.change) else row;
      ApplyWrites(row', table, id, ws[1..])
  }

  lemma {:induction false} ApplyWritesAppend(row: Row, table: Table, id: string, ws1: seq<Write>, ws2: seq<Write>)
    ensures ApplyWrites(row, table, id, ws1 + ws2) == ApplyWrites(ApplyWrites(row, table, id, ws1), table, id, ws2)
    decreases |ws1|
  {
    if ws1 == [] {
      assert ws1 + ws2 == ws2;
    } else {
      assert (ws1 + ws2)[1..] == ws1[1..] + ws2;
      var w := ws1[0];
      var row' := if w.Update? && w.table == table && id in w.ids then Apply(row, w.change) else row;
      ApplyWritesAppend(row', table, id, ws1[1..], ws2);
    }
  }

  /** The writes the screen sends when it records an action on an existing item:
      the soft delete, the move, the field write (two for a tree's owner: the owner
      and the status derived from it), and the avatar. */
  function Forward(a: Action): seq<Write> {
    match a
    case AddAction(it) => []
    case DeleteAction(it) => [Update(TableFor(it), [it.id], SetActive(false))]
    case GenerateAction(ids, _) => []
    case MoveAction(it, _, _, nx, ny) => [Update(TableFor(it), [it.id], SetPosition(nx, ny))]
    case EditAction(it, f, _, nv) =>
      if f == OwnerField && it.category == Tree then
        [ Update(Trees, [it.id], SetColumn("owner", OrNull(nv))),
          Update(Trees, [it.id], SetColumn("status", Str(StatusFor(nv)))) ]
      else [Update(TableFor(it), [it.id], SetColumn(Column(TableFor(it), f), OrNull(nv)))]
    case AvatarAction(it, _, _, nv, _) => [Update(TableFor(it), [it.id], SetColumn("custom_avatar", nv))]
  }

  /** The stored row matches the snapshot the action recorded: it is active, at the
      old position, and holds the old value (and, for a tree's owner, the old
      status) in the columns the action changes. */
  predicate Matches(row: Row, a: Action) {
    match a
    case AddAction(_) => true
    case DeleteAction(_) => row.active
    case GenerateAction(_, _) => true
    case MoveAction(_, ox, oy, _, _) => row.x == ox && row.y == oy
    case EditAction(it, f, ov, _) =>
      FieldName(f) in row.columns && row.columns[FieldName(f)] == ov &&
      (f == OwnerField && it.category == Tree ==> "status" in row.columns && row.columns["status"] == it.status)
    case AvatarAction(_, ov, _, _, _) => "custom_avatar" in row.columns && row.columns["custom_avatar"] == ov
  }

  /** The edits the edit card can send: 'sort' is offered on trees only (on other
      items the card edits 'description'). */
  predicate Recordable(a: Action) {
    a.EditAction? ==> !(a.field == SortField && a.item.category != Tree)
  }

  /** Undo reverses: a row that matched the recorded snapshot before the action's
      writes is that row again after the action's writes and their reversal. An
      added row or a generated batch ends inactive. */
  lemma {:induction false} InverseRestores(row: Row, a: Action)
    requires Recordable(a)
    ensures !a.AddAction? && !a.GenerateAction? && Matches(row, a) ==>
      var t, id := TableFor(a.item), a.item.id;
      ApplyWrites(ApplyWrites(row, t, id, Forward(a)), t, id, Inverse(a)) == row
    ensures a.AddAction? ==> !ApplyWrites(row, TableFor(a.item), a.item.id, Inverse(a)).active
    ensures a.GenerateAction? ==> forall id :: id in a.ids ==> !ApplyWrites(row, Trees, id, Inverse(a)).active
  {
    if !a.AddAction? && !a.GenerateAction? && Matches(row, a) {
      if a.EditAction? && a.field == OwnerField && a.item.category == Tree {
        OwnerEditRestores(row, a);
      } else {
        SingleWriteRestores(row, a);
      }
    }
  }

  /** An owner edit of a tree: two writes forward, two back. */
  lemma OwnerEditRestores(row: Row, a: Action)
    requires a.EditAction? && a.field == OwnerField && a.item.category == Tree && Matches(row, a)
    ensures ApplyWrites(ApplyWrites(row, Trees, a.item.id, Forward(a)), Trees, a.item.id, Inverse(a)) == row
  {
    var it, nv, ov := a.item, a.newValue, a.oldValue;
    var ownerW := Update(Trees, [it.id], SetColumn("owner", OrNull(nv)));
    var statusW := Update(Trees, [it.id], SetColumn("status", Str(StatusFor(nv))));
    var undoOwner := Update(Trees, [it.id], SetColumn("owner", ov));
    var undoStatus := Update(Trees, [it.id], SetColumn("status", it.status));
    assert Forward(a) == [ownerW] + [statusW];
    assert Inverse(a) == [undoOwner] + [undoStatus];
    ApplyWritesAppend(row, Trees, it.id, [ownerW], [statusW]);
    var mid := ApplyWrites(row, Trees, it.id, Forward(a));
    ApplyWritesAppend(mid, Trees, it.id, [undoOwner], [undoStatus]);
    var m := row.columns["owner" := OrNull(nv)]["status" := Str(StatusFor(nv))]["owner" := ov]["status" := it.status];
    assert mid.columns == row.columns["owner" := OrNull(nv)]["status" := Str(StatusFor(nv))];
    assert m == row.columns;
  }

  /** Every other recorded action on an existing item: one write forward and its
      opposite back. */
  lemma SingleWriteRestores(row: Row, a: Action)
    requires Recordable(a) && !a.AddAction? && !a.GenerateAction? && Matches(row, a)
    requires !(a.EditAction? && a.field == OwnerField && a.item.category == Tree)
    ensures var t, id := TableFor(a.item), a.item.id;
      ApplyWrites(ApplyWrites(row, t, id, Forward(a)), t, id, Inverse(a)) == row
  {
    match a
    case DeleteAction(it) =>
      assert row.(active := false).(active := true) == row;
    case MoveAction(it, ox, oy, nx, ny) =>
      assert row.(x := nx, y := ny).(x := ox, y := oy) == row;
    case AvatarAction(it, ov, _, nv, _) =>
      assert row.columns["custom_avatar" := nv]["custom_avatar" := ov] == row.columns;
    case EditAction(it, f, ov, nv) =>
      var c := FieldName(f);
      assert Column(TableFor(it), f) == c;
      assert row.columns[c := OrNull(nv)][c := ov] == row.columns;
  }

  /** The reversal the source sends leaves a tree whose owner edit is undone with
      the status the edit derived: the tree got an owner, the owner is taken back,
      and the tree still reads 'Unavailable'. */
  lemma OwnerUndoAsWrittenKeepsStatus()
    ensures var it := Item("t1", Str("olive"), "", 10.0, 10.0, Str("olive"), Tree, Null, Null, Null,
                          Str("Available"), false, Null, Null, Null);
      var a := EditAction(it, OwnerField, Null, Str("Ann"));
      var row := Row(true, 10.0, 10.0, map["owner" := Null, "status" := Str("Available")]);
      var after := ApplyWrites(ApplyWrites(row, Trees, "t1", Forward(a)), Trees, "t1", InverseAsWritten(a));
      Matches(row, a) &&
      after.columns["owner"] == Null && after.columns["status"] == Str("Unavailable") && after != row
  {
    var it := Item("t1", Str("olive"), "", 10.0, 10.0, Str("olive"), Tree, Null, Null, Null,
                   Str("Available"), false, Null, Null, Null);
    var a := EditAction(it, OwnerField, Null, Str("Ann"));
    var row := Row(true, 10.0, 10.0, map["owner" := Null, "status" := Str("Available")]);
    var ownerW := Update(Trees, ["t1"], SetColumn("owner", Str("Ann")));
    var statusW := Update(Trees, ["t1"], SetColumn("status", Str("Unavailable")));
    assert Forward(a) == [ownerW] + [statusW];
    ApplyWritesAppend(row, Trees, "t1", [ownerW], [statusW]);
    var mid := ApplyWrites(row, Trees, "t1", Forward(a));
    assert mid.columns == map["owner" := Str("Ann"), "status" := Str("Unavailable")];
    var after := ApplyWrites(mid, Trees, "t1", InverseAsWritten(a));
    assert after.columns == map["owner" := Null, "status" := Str("Unavailable")];
    assert after.columns["status"] != row.columns["status"];
  }

  // ---------------------------------------------------------------------------
  // The stack

  class UndoStack {
    var stack: seq<Action>
    const maxStackSize: nat

    constructor(maxStackSize: nat := 10)
      ensures this.maxStackSize == maxStackSize && stack == []
    {
      this.maxStackSize := maxStackSize;
      stack := [];
    }

    method AddToUndoStack(a: Action)
      modifies this
      ensures stack == Push(old(stack), a, maxStackSize)
    {
      var s := [a] + stack;
      if |s| > maxStackSize {
        s := s[..maxStackSize];
      }
      stack := s;
    }

    method ClearUndoStack()
      modifies this
      ensures stack == []
    {
      stack := [];
    }

    /** `canUndo` */
    function CanUndo(): (b: bool)
      reads this
      ensures b <==> stack != []
    {
      |stack| > 0
    }

    /** `undo(onRefresh)`; `writeOk` is the outcome of the reversing writes. An
        empty stack fails without writing; a failed write leaves the stack as it
        was; a successful one pops the action and reports it. */
    method UndoLast(writeOk: bool) returns (success: bool, action: Option<Action>, writes: seq<Write>, refresh: bool)
      modifies this
      ensures old(stack) == [] ==> !success && action.None? && writes == [] && !refresh && stack == []
      ensures old(stack) != [] ==> writes == Inverse(old(stack)[0])
      ensures old(stack) != [] && writeOk ==>
        success && action == Some(old(stack)[0]) && stack == old(stack)[1..] && refresh == RefreshesAfter(old(stack)[0])
      ensures old(stack) != [] && !writeOk ==> !success && action.None? && stack == old(stack) && !refresh
    {
      if |stack| == 0 {
        return false, None, [], false;
      }
      var last := stack[0];
      writes := Inverse(last);
      if !writeOk {
        return false, None, writes, false;
      }
      stack := stack[1..];
      success, action, refresh := true, Some(last), RefreshesAfter(last);
    }
  }
}
