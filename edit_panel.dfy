/** The edit panel's form: four numeric fields pre-filled from the item;
    Save builds the updated record and calls `onChange` then `onClose`,
    Cancel calls `onClose` alone. */
module EditPanel {
  import opened Types

  /** The four numbers the form submits, already read as numbers. */
  datatype FormValues = FormValues(width: real, height: real, x: real, y: real)

  /** A call the panel makes to its owner. */
  datatype Callback = Change(updated: RoomItem) | Close

  /** The form's pre-filled values (each input's `defaultValue`). */
  function Defaults(item: RoomItem): FormValues
  {
    FormValues(item.width, item.height, item.x, item.y)
  }

  /** `{...item, width, height, x, y}`: the form's four values take over,
      every other field is the original item's. Nothing is clamped or
      checked: negative sizes and positions outside the room pass through. */
  function Submitted(item: RoomItem, form: FormValues): (updated: RoomItem)
    ensures Defaults(updated) == form
    ensures updated.(width := item.width, height := item.height, x := item.x, y := item.y) == item
  {
    item.(width := form.width, height := form.height, x := form.x, y := form.y)
  }

  /** The calls Save makes, in order. */
  function OnSave(item: RoomItem, form: FormValues): (calls: seq<Callback>)
    ensures |calls| == 2 && calls[0] == Change(Submitted(item, form))
    ensures forall i :: 0 < i < |calls| ==> calls[i] == Close
    ensures calls[|calls| - 1] == Close
  {
    [Change(Submitted(item, form)), Close]
  }

  /** The calls Cancel makes. */
  function OnCancel(): (calls: seq<Callback>)
    ensures |calls| == 1 && forall i :: 0 <= i < |calls| ==> calls[i] == Close
  {
    [Close]
  }

  /** The number of `onChange` calls in a sequence of calls. */
  function ChangeCount(calls: seq<Callback>): nat
  {
    if calls == [] then 0 else (if calls[0].Change? then 1 else 0) + ChangeCount(calls[1..])
  }

  /** Save calls `onChange` exactly once, before its `onClose`; Cancel never
      calls `onChange`. */
  lemma CallbackCounts(item: RoomItem, form: FormValues)
    ensures ChangeCount(OnSave(item, form)) == 1
    ensures ChangeCount(OnCancel()) == 0
  {
    var calls := OnSave(item, form);
    assert ChangeCount(calls[1..]) == 0 by {
      assert calls[1..][1..] == [];
    }
  }

  /** Submitting the form untouched gives back the original item. */
  lemma SubmitDefaultsIsIdentity(item: RoomItem)
    ensures Submitted(item, Defaults(item)) == item
  {
  }

  /** Submitting again with the same values changes nothing more, and a
      second submission overrides the first entirely. */
  lemma SubmitOverrides(item: RoomItem, first: FormValues, second: FormValues)
    ensures Submitted(Submitted(item, first), second) == Submitted(item, second)
  {
  }

  /** Submitting keeps the id, so the store's update by id replaces the
      edited item itself. */
  lemma SubmitKeepsIdentity(item: RoomItem, form: FormValues)
    ensures Submitted(item, form).id == item.id
    ensures Submitted(item, form).rotate == item.rotate && Submitted(item, form).kind == item.kind
    ensures Submitted(item, form).doorOpenDirection == item.doorOpenDirection
    ensures Submitted(item, form).doorOpenSide == item.doorOpenSide
  {
  }
}
