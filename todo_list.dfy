/** The todo-list program: one list account per owner holding an ordered
    vector of items and the id the next item will get. */
module TodoListApp {
  import opened Primitives

  datatype TodoItem = TodoItem(id: u32, description: string, completed: bool)

  /** `ErrorCode` of the program, plus the failures the framework raises:
      `NotOwner` stands for the list account's `seeds` constraint (derived from
      the signer's key, checked first) together with its `has_one = owner`
      constraint, which a signer other than the owner fails before the handler
      runs; `ArithmeticOverflow` is a checked `next_id += 1` that overflows. */
  datatype TodoError = ItemNotFound | ListNotEmpty | NotOwner | ArithmeticOverflow

  /** Item ids strictly increase along the list. */
  ghost predicate IdsIncreasing(items: seq<TodoItem>)
  {
    forall i, j :: 0 <= i < j < |items| ==> items[i].id < items[j].id
  }

  /** Every id is below the counter that hands out the next one. */
  ghost predicate IdsBelow(items: seq<TodoItem>, nextId: int)
  {
    forall i :: 0 <= i < |items| ==> items[i].id < nextId
  }

  /** Position of the first item with id `id`, as the handlers' linear scans find it. */
  function FirstIndexOf(items: seq<TodoItem>, id: u32): (r: Option<nat>)
    ensures r.Some? ==> r.value < |items| && items[r.value].id == id
    ensures r.Some? ==> forall k :: 0 <= k < r.value ==> items[k].id != id
    ensures r.None? <==> forall k :: 0 <= k < |items| ==> items[k].id != id
  {
    if items == [] then None
    else if items[0].id == id then Some(0)
    else match FirstIndexOf(items[1..], id)
      case None => None
      case Some(k) => Some(k + 1)
  }

  /** `items` with the completion flag of item `k` flipped. */
  function ToggledAt(items: seq<TodoItem>, k: nat): (r: seq<TodoItem>)
    requires k < |items|
    ensures |r| == |items|
    ensures r[k].id == items[k].id && r[k].description == items[k].description
    ensures r[k].completed != items[k].completed
    ensures forall i :: 0 <= i < |items| && i != k ==> r[i] == items[i]
  {
    items[k := items[k].(completed := !items[k].completed)]
  }

  /** `items` with item `k` taken out, as `Vec::remove` does. */
  function RemovedAt(items: seq<TodoItem>, k: nat): (r: seq<TodoItem>)
    requires k < |items|
    ensures |r| == |items| - 1
    ensures forall i :: 0 <= i < k ==> r[i] == items[i]
    ensures forall i :: k <= i < |r| ==> r[i] == items[i + 1]
  {
    items[..k] + items[k + 1..]
  }

  /** With increasing ids the first match is the only match. */
  lemma IncreasingIdsAreUnique(items: seq<TodoItem>, i: nat, j: nat)
    requires IdsIncreasing(items)
    requires i < |items| && j < |items| && items[i].id == items[j].id
    ensures i == j
  {
  }

  /** Appending an item whose id is the counter keeps both invariants for the next counter. */
  lemma {:induction false} AppendKeepsInvariant(items: seq<TodoItem>, nextId: u32, description: string)
    requires IdsIncreasing(items) && IdsBelow(items, nextId)
    ensures IdsIncreasing(items + [TodoItem(nextId, description, false)])
    ensures IdsBelow(items + [TodoItem(nextId, description, false)], nextId + 1)
  {
    var items' := items + [TodoItem(nextId, description, false)];
    forall i, j | 0 <= i < j < |items'| ensures items'[i].id < items'[j].id {
      if j < |items| {
        assert items'[i] == items[i] && items'[j] == items[j];
      } else {
        assert items'[i] == items[i];
      }
    }
  }

  /** Toggling leaves every id in place, so the scan finds the same item again. */
  lemma ToggleKeepsIds(items: seq<TodoItem>, k: nat, id: u32)
    requires k < |items|
    ensures |ToggledAt(items, k)| == |items|
    ensures forall i :: 0 <= i < |items| ==> ToggledAt(items, k)[i].id == items[i].id
    ensures FirstIndexOf(ToggledAt(items, k), id) == FirstIndexOf(items, id)
  {
    var t := ToggledAt(items, k);
    assert forall i :: 0 <= i < |items| ==> t[i].id == items[i].id;
    match FirstIndexOf(items, id)
    case None =>
    case Some(m) =>
      assert t[m].id == id;
  }

  /** Toggling the same id twice restores the list. */
  lemma ToggleTwiceRestores(items: seq<TodoItem>, id: u32)
    requires FirstIndexOf(items, id).Some?
    ensures var k := FirstIndexOf(items, id).value;
            FirstIndexOf(ToggledAt(items, k), id) == Some(k)
            && ToggledAt(ToggledAt(items, k), k) == items
  {
    var k := FirstIndexOf(items, id).value;
    ToggleKeepsIds(items, k, id);
  }

  /** Removing an item keeps the remaining ones in order and the invariants intact. */
  lemma RemoveKeepsInvariant(items: seq<TodoItem>, k: nat, nextId: int)
    requires k < |items| && IdsIncreasing(items) && IdsBelow(items, nextId)
    ensures |RemovedAt(items, k)| == |items| - 1
    ensures forall i :: 0 <= i < |items| - 1 ==>
              RemovedAt(items, k)[i] == (if i < k then items[i] else items[i + 1])
    ensures IdsIncreasing(RemovedAt(items, k)) && IdsBelow(RemovedAt(items, k), nextId)
  {
    var r := RemovedAt(items, k);
    assert forall i :: 0 <= i < |r| ==> r[i] == (if i < k then items[i] else items[i + 1]);
  }

  /** Deleting the first item with `id` leaves no item with that id behind. */
  lemma DeleteRemovesId(items: seq<TodoItem>, id: u32)
    requires IdsIncreasing(items) && FirstIndexOf(items, id).Some?
    ensures forall i :: 0 <= i < |items| - 1 ==>
              RemovedAt(items, FirstIndexOf(items, id).value)[i].id != id
  {
    var k := FirstIndexOf(items, id).value;
    var r := RemovedAt(items, k);
    forall i | 0 <= i < |items| - 1 ensures r[i].id != id {
      if i < k {
        assert r[i] == items[i];
      } else {
        assert r[i] == items[i + 1] && items[k].id < items[i + 1].id;
      }
    }
  }

  class TodoList {
    var items: seq<TodoItem>
    var owner: Key
    var nextId: u32

    ghost predicate Valid()
      reads this
    {
      IdsIncreasing(items) && IdsBelow(items, nextId)
    }

    /** `create_list`: an empty list owned by the user, handing out id 0 next. */
    constructor CreateList(user: Key)
      ensures Valid()
      ensures items == [] && owner == user && nextId == 0
    {
      items := [];
      owner := user;
      nextId := 0;
    }

    /** `add_item`: appends an incomplete item carrying the next id. */
    method AddItem(signer: Key, description: string) returns (r: Result<(), TodoError>)
      requires Valid()
      modifies this
      ensures Valid() && owner == old(owner)
      ensures signer != old(owner) ==> r == Err(NotOwner)
      ensures signer == old(owner) && old(nextId) == U32_MAX ==> r == Err(ArithmeticOverflow)
      ensures signer == old(owner) && old(nextId) < U32_MAX ==> r == Ok(())
      ensures r.Ok? ==> items == old(items) + [TodoItem(old(nextId), description, false)]
                        && nextId == old(nextId) + 1
      ensures r.Err? ==> items == old(items) && nextId == old(nextId)
    {
      if signer != owner {
        return Err(NotOwner);
      }
      // `next_id += 1` would panic and abort the whole instruction.
      if nextId == U32_MAX {
        return Err(ArithmeticOverflow);
      }
      AppendKeepsInvariant(items, nextId, description);
      var item := TodoItem(nextId, description, false);
      items := items + [item];
      nextId := nextId + 1;
      r := Ok(());
    }

    /** `toggle_completed_item`: flips the first item whose id matches. */
    method ToggleCompletedItem(signer: Key, itemId: u32) returns (r: Result<(), TodoError>)
      requires Valid()
      modifies this
      ensures Valid() && owner == old(owner) && nextId == old(nextId)
      ensures signer != old(owner) ==> r == Err(NotOwner)
      ensures signer == old(owner) && FirstIndexOf(old(items), itemId).None? ==> r == Err(ItemNotFound)
      ensures signer == old(owner) && FirstIndexOf(old(items), itemId).Some? ==>
                r == Ok(()) && items == ToggledAt(old(items), FirstIndexOf(old(items), itemId).value)
      ensures r.Err? ==> items == old(items)
    {
      if signer != owner {
        return Err(NotOwner);
      }
      var i := 0;
      while i < |items|
        invariant 0 <= i <= |items|
        invariant forall k :: 0 <= k < i ==> items[k].id != itemId
        invariant items == old(items)
      {
        if items[i].id == itemId {
          ToggleKeepsIds(items, i, itemId);
          items := items[i := items[i].(completed := !items[i].completed)];
          return Ok(());
        }
        i := i + 1;
      }
      r := Err(ItemNotFound);
    }

    /** `delete_item`: removes the first item whose id matches, keeping the order of the rest. */
    method DeleteItem(signer: Key, itemId: u32) returns (r: Result<(), TodoError>)
      requires Valid()
      modifies this
      ensures Valid() && owner == old(owner) && nextId == old(nextId)
      ensures signer != old(owner) ==> r == Err(NotOwner)
      ensures signer == old(owner) && FirstIndexOf(old(items), itemId).None? ==> r == Err(ItemNotFound)
      ensures signer == old(owner) && FirstIndexOf(old(items), itemId).Some? ==>
                r == Ok(()) && items == RemovedAt(old(items), FirstIndexOf(old(items), itemId).value)
      ensures r.Err? ==> items == old(items)
    {
      if signer != owner {
        return Err(NotOwner);
      }
      var i := 0;
      while i < |items|
        invariant 0 <= i <= |items|
        invariant forall k :: 0 <= k < i ==> items[k].id != itemId
        invariant items == old(items)
      {
        if items[i].id == itemId {
          RemoveKeepsInvariant(items, i, nextId);
          items := items[..i] + items[i + 1..];
          return Ok(());
        }
        i := i + 1;
      }
      r := Err(ItemNotFound);
    }

    /** `close_list`: allowed only once the list is empty; reclaiming the account is the runtime's. */
    method CloseList(signer: Key) returns (r: Result<(), TodoError>)
      ensures signer != owner ==> r == Err(NotOwner)
      ensures signer == owner ==> (r == Ok(()) <==> items == [])
      ensures signer == owner && items != [] ==> r == Err(ListNotEmpty)
    {
      if signer != owner {
        return Err(NotOwner);
      }
      if items == [] {
        r := Ok(());
      } else {
        r := Err(ListNotEmpty);
      }
    }
  }
}
