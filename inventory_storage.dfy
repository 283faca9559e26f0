/** The inventory of supplies, kept as a list under the `laundryInventory` key of local storage
    and seeded with ten default items the first time it is read. */
module InventoryStorage {
  import opened Seqs
  import opened Text
  import opened Records

  /** The fields the caller supplies for a new item. */
  datatype ItemInput = ItemInput(name: string, quantity: int, minQuantity: int, unit: string)

  /** The items an empty store is seeded with, stamped with the time of the read. */
  function DefaultItems(now: int): seq<InventoryItem>
  {
    [ InventoryItem("1", "Skip", 10, 2, "kg", now),
      InventoryItem("2", "Vinagre", 5, 1, "L", now),
      InventoryItem("3", "Bolsas camiseta", 100, 20, "unidades", now),
      InventoryItem("4", "Bolsas acolchado", 50, 10, "unidades", now),
      InventoryItem("5", "Perfumina", 3, 1, "L", now),
      InventoryItem("6", "Desengrasante", 2, 1, "L", now),
      InventoryItem("7", "Bactericida", 2, 1, "L", now),
      InventoryItem("8", "Bolitas", 20, 5, "unidades", now),
      InventoryItem("9", "Quita sangre", 1, 1, "L", now),
      InventoryItem("10", "Quitamanchas", 2, 1, "L", now) ]
  }

  /** An item at or below its minimum quantity. */
  function IsLow(item: InventoryItem): bool
  {
    item.quantity <= item.minQuantity
  }

  function NotId(id: string): InventoryItem -> bool
  {
    (item: InventoryItem) => item.id != id
  }

  /** `findIndex`: the first position holding an item with the id. */
  function IndexOfId(items: seq<InventoryItem>, id: string): (r: Option<nat>)
    ensures r.Some? ==> r.value < |items| && items[r.value].id == id
    ensures r.Some? ==> forall j :: 0 <= j < r.value ==> items[j].id != id
    ensures r.None? ==> forall j :: 0 <= j < |items| ==> items[j].id != id
  {
    FindIndex(items, (item: InventoryItem) => item.id == id)
  }

  /** The seed has ten items with the ids "1" to "10", all stamped with the time of the read. */
  lemma {:induction false} DefaultItemsShape(now: int)
    ensures |DefaultItems(now)| == 10
    ensures forall i :: 0 <= i < 10 ==> DefaultItems(now)[i].id == ToDecimal(i + 1) && DefaultItems(now)[i].lastUpdated == now
  {
    assert ToDecimal(10) == "10" by { assert ToDecimal(1) == "1"; }
  }

  /** Of the seeded items only 'Quita sangre' (1 in stock, minimum 1) is low. */
  lemma {:induction false} OnlyQuitaSangreLow(now: int)
    ensures Filter(DefaultItems(now), IsLow) == [DefaultItems(now)[8]]
    ensures DefaultItems(now)[8].name == "Quita sangre"
  {
    var d := DefaultItems(now);
    assert d[..10] == d;
    FilterStepNoSum(d, 10);
  }

  lemma {:induction false} FilterStepNoSum(d: seq<InventoryItem>, n: nat)
    requires n <= |d| && |d| == 10
    requires forall i :: 0 <= i < 10 ==> (IsLow(d[i]) <==> i == 8)
    ensures Filter(d[..n], IsLow) == if n <= 8 then [] else [d[8]]
  {
    if n > 0 {
      FilterStepNoSum(d, n - 1);
      assert d[..n][..n - 1] == d[..n - 1];
    }
  }

  /** Local storage as the inventory functions use it. */
  class InventoryStore {
    var laundryInventory: Option<seq<InventoryItem>>

    constructor()
      ensures laundryInventory == None
    {
      laundryInventory := None;
    }

    /** The list a read at time `now` yields: the stored one, or the seed. */
    function Items(now: int): seq<InventoryItem>
      reads this
    {
      if laundryInventory.Some? then laundryInventory.value else DefaultItems(now)
    }

    /** `getInventoryItems`: an empty store is seeded with the defaults, which are saved. */
    method GetInventoryItems(now: int) returns (items: seq<InventoryItem>)
      modifies this
      ensures items == old(Items(now))
      ensures laundryInventory == Some(items)
      ensures old(laundryInventory).Some? ==> laundryInventory == old(laundryInventory)
    {
      if laundryInventory.None? {
        items := DefaultItems(now);
        laundryInventory := Some(items);
      } else {
        items := laundryInventory.value;
      }
    }

    /** `addInventoryItem`: one new item, with the caller's fields, the id taken from the clock
        and the time of the call, is appended; the items already there are unchanged. */
    method AddInventoryItem(input: ItemInput, id: string, now: int) returns (newItem: InventoryItem)
      modifies this
      ensures newItem == InventoryItem(id, input.name, input.quantity, input.minQuantity, input.unit, now)
      ensures laundryInventory == Some(old(Items(now)) + [newItem])
    {
      var inventory := GetInventoryItems(now);
      newItem := InventoryItem(id, input.name, input.quantity, input.minQuantity, input.unit, now);
      inventory := inventory + [newItem];
      laundryInventory := Some(inventory);
    }

    /** `updateInventoryItem`: 'Item not found' when no item has the id, leaving the list as
        read; otherwise the first item with the id is replaced by the given one, stamped with the
        time of the call, and every other position is unchanged. */
    method UpdateInventoryItem(item: InventoryItem, now: int) returns (r: Result<InventoryItem>)
      modifies this
      ensures IndexOfId(old(Items(now)), item.id).None? ==>
        r == Failure("Item not found") && laundryInventory == Some(old(Items(now)))
      ensures IndexOfId(old(Items(now)), item.id).Some? ==>
        r == Success(item.(lastUpdated := now)) &&
        laundryInventory == Some(old(Items(now))[IndexOfId(old(Items(now)), item.id).value := item.(lastUpdated := now)])
    {
      var inventory := GetInventoryItems(now);
      var index := IndexOfId(inventory, item.id);
      if index.None? {
        return Failure("Item not found");
      }
      var updatedItem := item.(lastUpdated := now);
      inventory := inventory[index.value := updatedItem];
      laundryInventory := Some(inventory);
      r := Success(updatedItem);
    }

    /** `deleteInventoryItem`: every item with the id is dropped, the rest kept in order. */
    method DeleteInventoryItem(id: string, now: int)
      modifies this
      ensures laundryInventory == Some(Filter(old(Items(now)), NotId(id)))
    {
      var inventory := GetInventoryItems(now);
      laundryInventory := Some(Filter(inventory, NotId(id)));
    }

    /** `getLowInventoryItems`. */
    method GetLowInventoryItems(now: int) returns (low: seq<InventoryItem>)
      modifies this
      ensures low == Filter(old(Items(now)), IsLow)
      ensures laundryInventory == Some(old(Items(now)))
    {
      var inventory := GetInventoryItems(now);
      low := Filter(inventory, IsLow);
    }
  }

  /** Deleting keeps exactly the items with another id, in order; an unknown id keeps them all. */
  lemma {:induction false} DeleteRemovesId(items: seq<InventoryItem>, id: string, x: InventoryItem)
    ensures x in Filter(items, NotId(id)) <==> x in items && x.id != id
    ensures IsSubsequence(Filter(items, NotId(id)), items)
    ensures IndexOfId(items, id).None? ==> Filter(items, NotId(id)) == items
  {
    FilterMembership(items, NotId(id), x);
    FilterIsSubsequence(items, NotId(id));
    if IndexOfId(items, id).None? {
      FilterAllKept(items, NotId(id));
    }
  }

  /** The low-stock list holds exactly the items at or below their minimum, in stored order. */
  lemma {:induction false} LowItemsExactly(items: seq<InventoryItem>, x: InventoryItem)
    ensures x in Filter(items, IsLow) <==> x in items && x.quantity <= x.minQuantity
    ensures IsSubsequence(Filter(items, IsLow), items)
  {
    FilterMembership(items, IsLow, x);
    FilterIsSubsequence(items, IsLow);
  }
}
