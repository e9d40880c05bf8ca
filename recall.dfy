/** The saved-questions modal: it lists what storage holds, newest first,
    lets the user delete an entry or select one (which is sent to the host
    at once), and confirms a selection. */
module Recall {
  import opened Optional
  import opened Lists
  import opened Storage

  /** `list.filter(q => q.id !== id)`. */
  function WithoutId(xs: seq<SavedQuestion>, id: int): (r: seq<SavedQuestion>)
    ensures |r| <= |xs|
    ensures forall q :: q in r <==> q in xs && q.id != id
    ensures IsSubsequence(r, xs)
    ensures forall q :: multiset(r)[q] == if q.id != id then multiset(xs)[q] else 0
  {
    if xs == [] then []
    else
      assert xs == [xs[0]] + xs[1..];
      if xs[0].id == id then WithoutId(xs[1..], id)
      else [xs[0]] + WithoutId(xs[1..], id)
  }

  /** Deleting an id that is not listed keeps the list as it is. */
  lemma {:induction false} WithoutAbsentId(xs: seq<SavedQuestion>, id: int)
    requires forall q :: q in xs ==> q.id != id
    ensures WithoutId(xs, id) == xs
  {
    if xs != [] {
      assert xs[0] in xs;
      WithoutAbsentId(xs[1..], id);
      assert xs == [xs[0]] + xs[1..];
    }
  }

  /** Deleting the same id twice is the same as deleting it once. */
  lemma WithoutIdIdempotent(xs: seq<SavedQuestion>, id: int)
    ensures WithoutId(WithoutId(xs, id), id) == WithoutId(xs, id)
  {
    WithoutAbsentId(WithoutId(xs, id), id);
  }

  lemma {:induction false} WithoutIdAppend(xs: seq<SavedQuestion>, ys: seq<SavedQuestion>, id: int)
    ensures WithoutId(xs + ys, id) == WithoutId(xs, id) + WithoutId(ys, id)
  {
    if xs == [] {
      assert xs + ys == ys;
    } else {
      assert (xs + ys)[0] == xs[0];
      assert (xs + ys)[1..] == xs[1..] + ys;
      WithoutIdAppend(xs[1..], ys, id);
    }
  }

  /** Filtering commutes with reversal: deleting from the newest-first list
      gives the newest-first view of deleting from the stored one. */
  lemma {:induction false} WithoutIdReverse(xs: seq<SavedQuestion>, id: int)
    ensures WithoutId(Reverse(xs), id) == Reverse(WithoutId(xs, id))
  {
    if xs != [] {
      var init, last := xs[..|xs| - 1], xs[|xs| - 1];
      assert xs == init + [last];
      assert Reverse(xs) == [last] + Reverse(init);
      WithoutIdAppend([last], Reverse(init), id);
      WithoutIdReverse(init, id);
      WithoutIdAppend(init, [last], id);
      ReverseAppend(WithoutId(init, id), WithoutId([last], id));
    }
  }

  /** What `loadSavedQuestions` leaves on screen: the stored array reversed,
      or, when parsing fails, whatever was shown before. */
  function Loaded(slot: Slot, shown: seq<SavedQuestion>): seq<SavedQuestion> {
    match Parse(slot)
    case Some(items) => Reverse(items)
    case None => shown
  }

  /** Loading shows the stored records newest first, an empty list when
      nothing is stored, and leaves the list alone on a corrupt slot. */
  lemma LoadedNewestFirst(slot: Slot, shown: seq<SavedQuestion>)
    ensures slot.Stored? ==>
      && |Loaded(slot, shown)| == |slot.items|
      && forall i :: 0 <= i < |slot.items| ==>
           Loaded(slot, shown)[i] == slot.items[|slot.items| - 1 - i]
    ensures slot.Missing? ==> Loaded(slot, shown) == []
    ensures slot.Corrupt? ==> Loaded(slot, shown) == shown
  {
    if slot.Stored? {
      ReverseElements(slot.items);
    }
  }

  /** What the modal sends to its host: content to show, or "close me". */
  datatype Event = Emit(content: string) | Close

  class SavedQuestionsPanel {
    const storage: LocalStorage
    var shown: seq<SavedQuestion>
    var selected: Option<SavedQuestion>

    /** Mounting: empty list, nothing selected; `Load` is the mount effect. */
    constructor (storage: LocalStorage)
      ensures this.storage == storage
      ensures shown == [] && selected == None
    {
      this.storage := storage;
      shown := [];
      selected := None;
    }

    method Load()
      modifies this
      ensures shown == Loaded(storage.slot, old(shown))
      ensures selected == old(selected)
    {
      match Parse(storage.slot)
      case Some(items) =>
        shown := Reverse(items);
      case None =>
    }

    /** `handleDeleteQuestion`. The filtered list is put on screen before the
        write; if the write throws (`writeOk` false), the slot and the
        selection are left as they were. On success the slot receives the
        newest-first list. */
    method Delete(id: int, writeOk: bool)
      modifies this, storage
      ensures shown == WithoutId(old(shown), id)
      ensures storage.slot == if writeOk then Stored(shown) else old(storage.slot)
      ensures selected ==
        if writeOk && old(selected).Some? && old(selected).value.id == id then None
        else old(selected)
    {
      var updated := WithoutId(shown, id);
      shown := updated;
      if writeOk {
        storage.slot := Stored(updated);
        if selected.Some? && selected.value.id == id {
          selected := None;
        }
      }
    }

    /** `handleSelectQuestion`: select, and send the content right away. */
    method Select(q: SavedQuestion) returns (events: seq<Event>)
      modifies this
      ensures selected == Some(q) && shown == old(shown)
      ensures events == [Emit(q.content)]
    {
      selected := Some(q);
      events := [Emit(q.content)];
    }

    /** The "use this question" button, shown only while something is
        selected: send the content again, then ask to be closed. */
    method ConfirmUse() returns (events: seq<Event>)
      requires selected.Some?
      ensures |events| == 2 && events[0] == Emit(selected.value.content) && events[1] == Close
    {
      events := [Emit(selected.value.content), Close];
    }
  }

  /** A delete that is written back turns the stored order around: loading
      again afterwards lists the surviving records oldest first. */
  lemma ReloadAfterDeleteIsChronological(items: seq<SavedQuestion>, id: int)
    ensures Loaded(Stored(WithoutId(Loaded(Stored(items), []), id)), []) == WithoutId(items, id)
  {
    WithoutIdReverse(items, id);
    ReverseInvolution(WithoutId(items, id));
  }
}
