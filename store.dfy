/** The layout store owned by the top-level application component: the
    ordered list of placed items and the id of the item open in the edit
    panel. The new lists are built by pure functions (spread, `map`,
    `filter`); the component's state setters are the methods of
    `LayoutStore`, which replace the fields with those lists. */
module Store {
  import opened Types
  import opened Units
  import opened EditPanel

  /** Where a newly added item is placed, in centimetres from the room's top-left corner. */
  const NewItemX: real := 50.0
  const NewItemY: real := 50.0

  /** The ids of `items`, in list order. */
  function Ids(items: seq<RoomItem>): seq<int>
  {
    seq(|items|, i requires 0 <= i < |items| => items[i].id)
  }

  /** No two items share an id. */
  predicate DistinctIds(items: seq<RoomItem>)
  {
    forall i, j :: 0 <= i < j < |items| ==> items[i].id != items[j].id
  }

  /** The record the add handler builds: the given size and type, placed at
      (50, 50), with no rotation and no door settings. */
  function NewItem(id: int, width: real, height: real, kind: string): RoomItem
  {
    RoomItem(id, width, height, NewItemX, NewItemY, None, Some(kind), None, None)
  }

  /** `[...items, newItem]`: the old list with the new item appended. */
  function WithAdded(items: seq<RoomItem>, id: int, width: real, height: real, kind: string): (added: seq<RoomItem>)
    ensures |added| == |items| + 1
    ensures added[..|items|] == items
    ensures added[|items|].id == id && added[|items|].width == width && added[|items|].height == height
    ensures added[|items|].x == 50.0 && added[|items|].y == 50.0 && added[|items|].kind == Some(kind)
    ensures added[|items|].rotate == None
    ensures added[|items|].doorOpenDirection == None && added[|items|].doorOpenSide == None
  {
    items + [NewItem(id, width, height, kind)]
  }

  /** `items.map(i => i.id === updated.id ? updated : i)`. */
  function UpdateById(items: seq<RoomItem>, updated: RoomItem): (result: seq<RoomItem>)
    ensures |result| == |items|
    ensures forall i :: 0 <= i < |items| && items[i].id == updated.id ==> result[i] == updated
    ensures forall i :: 0 <= i < |items| && items[i].id != updated.id ==> result[i] == items[i]
  {
    if items == [] then []
    else [if items[0].id == updated.id then updated else items[0]] + UpdateById(items[1..], updated)
  }

  /** `items.filter(i => i.id !== id)`. */
  function WithoutId(items: seq<RoomItem>, id: int): (kept: seq<RoomItem>)
    ensures |kept| <= |items|
    ensures forall it: RoomItem :: it.id == id ==> multiset(kept)[it] == 0
    ensures forall it: RoomItem :: it.id != id ==> multiset(kept)[it] == multiset(items)[it]
  {
    if items == [] then []
    else
      assert items == [items[0]] + items[1..];
      if items[0].id != id then [items[0]] + WithoutId(items[1..], id)
      else WithoutId(items[1..], id)
  }

  /** `items.find(i => i.id === id)`: the first item carrying `id`, if any. */
  function FindById(items: seq<RoomItem>, id: int): (found: Option<RoomItem>)
    ensures found.None? <==> forall i :: 0 <= i < |items| ==> items[i].id != id
    ensures found.Some? ==>
      exists i :: 0 <= i < |items| && items[i] == found.value && found.value.id == id &&
        forall j :: 0 <= j < i ==> items[j].id != id
  {
    if items == [] then None
    else if items[0].id == id then Some(items[0])
    else FindById(items[1..], id)
  }

  /** The three items the layout-designer application starts with. */
  function SeedItems(): seq<RoomItem>
  {
    [ RoomItem(1, 30.0, 50.0, 50.0, 50.0, None, None, None, None),
      RoomItem(2, 100.0, 100.0, 200.0, 100.0, None, None, None, None),
      RoomItem(3, 200.0, 150.0, 400.0, 200.0, None, None, None, None) ]
  }

  /** The preferences the top-level application starts with. */
  function DefaultPreferences(): Preferences
  {
    Preferences(30, Some("#f0f0f0ff"), Some(Cm))
  }

  // ---------------------------------------------------------------------
  // Properties of the list operations

  /** The seed list holds ids 1, 2 and 3, pairwise distinct. */
  lemma SeedIdsDistinct()
    ensures Ids(SeedItems()) == [1, 2, 3]
    ensures DistinctIds(SeedItems())
  {
  }

  /** Appending an item whose id is fresh keeps the ids distinct, and the new
      item is then the one found by its id. */
  lemma AddKeepsIdsDistinct(items: seq<RoomItem>, id: int, width: real, height: real, kind: string)
    requires DistinctIds(items)
    requires id !in Ids(items)
    ensures DistinctIds(WithAdded(items, id, width, height, kind))
    ensures FindById(WithAdded(items, id, width, height, kind), id) == Some(NewItem(id, width, height, kind))
  {
    var added := WithAdded(items, id, width, height, kind);
    forall i | 0 <= i < |items| ensures added[i].id != id {
      assert Ids(items)[i] == items[i].id;
    }
  }

  /** Updating by id keeps the length and the sequence of ids. */
  lemma UpdateKeepsIds(items: seq<RoomItem>, updated: RoomItem)
    ensures Ids(UpdateById(items, updated)) == Ids(items)
    ensures DistinctIds(items) ==> DistinctIds(UpdateById(items, updated))
  {
  }

  /** Updating with an id that no item carries leaves the list unchanged. */
  lemma UpdateMissingIsNoop(items: seq<RoomItem>, updated: RoomItem)
    requires forall i :: 0 <= i < |items| ==> items[i].id != updated.id
    ensures UpdateById(items, updated) == items
  {
  }

  /** After an update, looking the id up yields the updated record (the edit
      panel re-reads its item this way), provided some item had that id. */
  lemma FindAfterUpdate(items: seq<RoomItem>, updated: RoomItem)
    requires exists i :: 0 <= i < |items| && items[i].id == updated.id
    ensures FindById(UpdateById(items, updated), updated.id) == Some(updated)
  {
    var result := UpdateById(items, updated);
    var found := FindById(result, updated.id);
    var i :| 0 <= i < |items| && items[i].id == updated.id;
    assert result[i] == updated;
  }

  /** Repeating an update changes nothing more. */
  lemma UpdateIdempotent(items: seq<RoomItem>, updated: RoomItem)
    ensures UpdateById(UpdateById(items, updated), updated) == UpdateById(items, updated)
  {
  }

  /** Filtering distributes over concatenation, so the survivors keep their
      relative order. */
  lemma {:induction false} WithoutIdAppend(a: seq<RoomItem>, b: seq<RoomItem>, id: int)
    ensures WithoutId(a + b, id) == WithoutId(a, id) + WithoutId(b, id)
  {
    if a == [] {
      assert a + b == b;
    } else {
      assert (a + b)[1..] == a[1..] + b;
      WithoutIdAppend(a[1..], b, id);
    }
  }

  /** Removing an id that no item carries leaves the list unchanged. */
  lemma {:induction false} WithoutMissingIsNoop(items: seq<RoomItem>, id: int)
    requires forall i :: 0 <= i < |items| ==> items[i].id != id
    ensures WithoutId(items, id) == items
  {
    if items != [] {
      WithoutMissingIsNoop(items[1..], id);
      assert [items[0]] + items[1..] == items;
    }
  }

  /** Removing an id keeps the remaining ids distinct, and the id can no
      longer be found. */
  lemma {:induction false} RemoveKeepsIdsDistinct(items: seq<RoomItem>, id: int)
    requires DistinctIds(items)
    ensures DistinctIds(WithoutId(items, id))
    ensures FindById(WithoutId(items, id), id) == None
  {
    var kept := WithoutId(items, id);
    forall i | 0 <= i < |kept| ensures kept[i].id != id {
      assert multiset(kept)[kept[i]] > 0;
    }
    if items != [] {
      var rest := WithoutId(items[1..], id);
      RemoveKeepsIdsDistinct(items[1..], id);
      if items[0].id != id {
        assert kept == [items[0]] + rest;
        forall j | 0 <= j < |rest| ensures rest[j].id != items[0].id {
          assert multiset(rest)[rest[j]] > 0;
          assert rest[j] in multiset(items[1..]);
          var k :| 0 <= k < |items[1..]| && items[1..][k] == rest[j];
          assert items[k + 1] == rest[j];
        }
      }
    }
  }

  /** Saving the edit panel for the selected item hands the store a record
      with the same id, so the update replaces that item, keeps every id in
      place, and the panel then re-reads exactly what was saved. */
  lemma SaveReplacesEditedItem(items: seq<RoomItem>, id: int, form: FormValues)
    requires FindById(items, id).Some?
    ensures Ids(UpdateById(items, Submitted(FindById(items, id).value, form))) == Ids(items)
    ensures FindById(UpdateById(items, Submitted(FindById(items, id).value, form)), id) ==
      Some(Submitted(FindById(items, id).value, form))
  {
    var updated := Submitted(FindById(items, id).value, form);
    UpdateKeepsIds(items, updated);
    FindAfterUpdate(items, updated);
  }

  // ---------------------------------------------------------------------
  // The component state

  /** The `items` and `editingItemId` state of an application component and
      the handlers that replace them. */
  class LayoutStore {
    var items: seq<RoomItem>
    var editingItemId: Option<int>

    /** The top-level application starts with no items and nothing selected. */
    constructor Empty()
      ensures items == [] && editingItemId == None
    {
      items := [];
      editingItemId := None;
    }

    /** The layout-designer application starts with the three seed items. */
    constructor Seeded()
      ensures items == SeedItems() && editingItemId == None
      ensures DistinctIds(items)
    {
      items := SeedItems();
      editingItemId := None;
      SeedIdsDistinct();
    }

    /** `handleAddItem`; `id` stands for the clock value the source uses. */
    method AddItem(id: int, width: real, height: real, kind: string)
      modifies this
      ensures items == WithAdded(old(items), id, width, height, kind)
      ensures editingItemId == old(editingItemId)
      ensures DistinctIds(old(items)) && id !in Ids(old(items)) ==> DistinctIds(items)
    {
      if DistinctIds(items) && id !in Ids(items) {
        AddKeepsIdsDistinct(items, id, width, height, kind);
      }
      items := WithAdded(items, id, width, height, kind);
    }

    /** `handleEditItem`: select an item (or none) for editing. */
    method EditItem(id: Option<int>)
      modifies this
      ensures editingItemId == id
      ensures items == old(items)
    {
      editingItemId := id;
    }

    /** `handleUpdateItem`: replace every item carrying the updated id. */
    method UpdateItem(updated: RoomItem)
      modifies this
      ensures items == UpdateById(old(items), updated)
      ensures Ids(items) == Ids(old(items))
      ensures DistinctIds(old(items)) ==> DistinctIds(items)
      ensures editingItemId == old(editingItemId)
    {
      UpdateKeepsIds(items, updated);
      items := UpdateById(items, updated);
    }

    /** `handleRemoveItem`: with an item selected, drop every item carrying
        its id and clear the selection; with none selected, do nothing. */
    method RemoveItem()
      modifies this
      ensures old(editingItemId) == None ==> items == old(items)
      ensures old(editingItemId).Some? ==> items == WithoutId(old(items), old(editingItemId).value)
      ensures old(editingItemId).Some? && DistinctIds(old(items)) ==>
        DistinctIds(items) && FindById(items, old(editingItemId).value) == None
      ensures editingItemId == None
    {
      if editingItemId.Some? {
        if DistinctIds(items) {
          RemoveKeepsIdsDistinct(items, editingItemId.value);
        }
        items := WithoutId(items, editingItemId.value);
        editingItemId := None;
      }
    }

    /** The item handed to the edit panel: the first one carrying the
        selected id. */
    function EditingItem(): (item: Option<RoomItem>)
      reads this
      ensures item.Some? ==> editingItemId.Some? && item.value.id == editingItemId.value && item.value in items
      ensures item.Some? ==>
        exists i :: 0 <= i < |items| && items[i] == item.value &&
          forall j :: 0 <= j < i ==> items[j].id != item.value.id
      ensures editingItemId.Some? && editingItemId.value in Ids(items) ==> item.Some?
    {
      match editingItemId
      case None => None
      case Some(id) => FindById(items, id)
    }
  }

  /** The top-level application's state: its layout store and its display
      preferences. */
  class DesignerApp {
    const store: LayoutStore
    var preferences: Preferences

    constructor ()
      ensures fresh(store)
      ensures store.items == [] && store.editingItemId == None
      ensures preferences.gridSize == 30 && preferences.unit == Some(Cm)
      ensures preferences == DefaultPreferences()
    {
      store := new LayoutStore.Empty();
      preferences := DefaultPreferences();
    }

    /** `handlePreferencesChange`: take the panel's preferences as they are. */
    method ChangePreferences(newPreferences: Preferences)
      modifies this
      ensures preferences == newPreferences
    {
      preferences := newPreferences;
    }
  }
}
