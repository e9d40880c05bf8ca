/** End-to-end runs of the shared storage through both components that use
    it, stated as methods that build fresh objects and report what they
    observe. */
module Scenarios {
  import opened Optional
  import opened Storage
  import opened Output
  import opened Lists
  import opened Recall
  import opened Gemini
  import opened Application

  /** Three saves, then the modal is opened and the middle record deleted:
      storage now holds the two survivors newest first, the reverse of the
      order in which they were saved. */
  method DeleteStoresNewestFirst(c1: string, c2: string, c3: string, t1: int, t2: int, t3: int,
                                 d1: string, d2: string, d3: string)
    returns (storedIds: seq<int>, shownIds: seq<int>)
    requires t1 != t2 && t2 != t3 && t1 != t3
    ensures storedIds == [t3, t1]
    ensures shownIds == [t3, t1]
  {
    var storage := new LocalStorage(Missing);
    var output := new OutputPanel(storage, false);
    output.Save(c1, t1, d1, true);
    output.Save(c2, t2, d2, true);
    output.Save(c3, t3, d3, true);
    ThreeSaves(c1, c2, c3, t1, t2, t3, d1, d2, d3);
    var saved := storage.slot.items;
    var modal := output.OpenSaved();
    DeleteMiddleOfThree(saved);
    modal.Delete(t2, true);
    var rest := modal.shown;
    storedIds := [storage.slot.items[0].id, storage.slot.items[1].id];
    shownIds := [rest[0].id, rest[1].id];
  }

  lemma ThreeSaves(c1: string, c2: string, c3: string, t1: int, t2: int, t3: int,
                   d1: string, d2: string, d3: string)
    ensures var slot := SavedSlot(SavedSlot(SavedSlot(Missing, c1, t1, d1, true), c2, t2, d2, true), c3, t3, d3, true);
      && slot.Stored? && |slot.items| == 3
      && slot.items[0].id == t1 && slot.items[1].id == t2 && slot.items[2].id == t3
  {
    var s1 := SavedSlot(Missing, c1, t1, d1, true);
    assert s1 == Stored([SavedQuestion(t1, c1, d1, Title(1))]);
    var s2 := SavedSlot(s1, c2, t2, d2, true);
    assert s2.items == s1.items + [SavedQuestion(t2, c2, d2, Title(2))];
    var s3 := SavedSlot(s2, c3, t3, d3, true);
    assert s3.items == s2.items + [SavedQuestion(t3, c3, d3, Title(3))];
  }

  lemma DeleteMiddleOfThree(saved: seq<SavedQuestion>)
    requires |saved| == 3 && saved[0].id != saved[1].id && saved[2].id != saved[1].id
    ensures Loaded(Stored(saved), []) == [saved[2], saved[1], saved[0]]
    ensures WithoutId(Loaded(Stored(saved), []), saved[1].id) == [saved[2], saved[0]]
  {
    LoadedThree(saved);
    DeleteMiddle(saved[2], saved[1], saved[0]);
  }

  lemma LoadedThree(saved: seq<SavedQuestion>)
    requires |saved| == 3
    ensures Loaded(Stored(saved), []) == [saved[2], saved[1], saved[0]]
  {
    LoadedNewestFirst(Stored(saved), []);
  }

  lemma DeleteMiddle(x: SavedQuestion, y: SavedQuestion, z: SavedQuestion)
    requires x.id != y.id && z.id != y.id
    ensures WithoutId([x, y, z], y.id) == [x, z]
  {
    WithoutIdCons(z, [], y.id);
    assert [z] + [] == [z];
    WithoutIdCons(y, [z], y.id);
    assert [y] + [z] == [y, z];
    WithoutIdCons(x, [y, z], y.id);
    assert [x] + [y, z] == [x, y, z];
  }

  lemma WithoutIdCons(x: SavedQuestion, xs: seq<SavedQuestion>, id: int)
    ensures WithoutId([x] + xs, id) == if x.id == id then WithoutId(xs, id) else [x] + WithoutId(xs, id)
  {
    assert ([x] + xs)[1..] == xs;
  }

  /** Titles count what is stored, so after a delete the next save repeats
      the title of a record that is still there. */
  method TitleRepeatsAfterDelete(c1: string, c2: string, c3: string, t1: int, t2: int, t3: int,
                                 d1: string, d2: string, d3: string)
    returns (titles: seq<string>)
    requires t1 != t2
    ensures titles == [Title(2), Title(2)]
  {
    var storage := new LocalStorage(Missing);
    var output := new OutputPanel(storage, false);
    output.Save(c1, t1, d1, true);
    output.Save(c2, t2, d2, true);
    TwoSavesThenDelete(c1, c2, c3, t1, t2, t3, d1, d2, d3);
    var modal := output.OpenSaved();
    modal.Delete(t1, true);
    output.Save(c3, t3, d3, true);
    titles := [storage.slot.items[0].title, storage.slot.items[1].title];
  }

  lemma TwoSavesThenDelete(c1: string, c2: string, c3: string, t1: int, t2: int, t3: int,
                           d1: string, d2: string, d3: string)
    requires t1 != t2
    ensures var slot := SavedSlot(SavedSlot(Missing, c1, t1, d1, true), c2, t2, d2, true);
      var kept := SavedQuestion(t2, c2, d2, Title(2));
      && WithoutId(Loaded(slot, []), t1) == [kept]
      && SavedSlot(Stored([kept]), c3, t3, d3, true) == Stored([kept, SavedQuestion(t3, c3, d3, Title(2))])
  {
    var q1 := SavedQuestion(t1, c1, d1, Title(1));
    var q2 := SavedQuestion(t2, c2, d2, Title(2));
    var s1 := SavedSlot(Missing, c1, t1, d1, true);
    assert s1 == Stored([q1]);
    var s2 := SavedSlot(s1, c2, t2, d2, true);
    assert s2 == Stored([q1, q2]);
    LoadedNewestFirst(s2, []);
    assert Loaded(s2, []) == [q2, q1];
    assert [q2, q1][1..][1..] == [];
  }

  /** A slot that does not parse is never overwritten by a save, and the
      modal keeps showing what it showed. */
  method CorruptSlotIsLeftAlone(content: string, now: int, nowIso: string, writeOk: bool)
    returns (status: string, slot: Slot, shown: seq<SavedQuestion>)
    ensures status == SaveFailedMessage && slot == Corrupt && shown == []
  {
    var storage := new LocalStorage(Corrupt);
    var output := new OutputPanel(storage, false);
    output.Save(content, now, nowIso, writeOk);
    var modal := output.OpenSaved();
    status, slot, shown := output.status, storage.slot, modal.shown;
  }

  /** The top-level component does not pass `onContentChange`, so picking a
      saved question in the modal never reaches the session: the modal
      emits the content, the result panel drops it, and the panel keeps
      showing what it showed before. */
  method RecallDoesNotReachSession(service: Service, storage: LocalStorage, reply: ProviderReply,
                                   picked: SavedQuestion)
    returns (emitted: seq<Event>, forwarded: Option<string>, before: Display, after: Display)
    ensures emitted == [Emit(picked.content)]
    ensures forwarded == None && after == before
  {
    var app := GeneratedApp(service, storage, reply);
    before := app.Screen();
    var modal := app.output.OpenSaved();
    emitted := modal.Select(picked);
    forwarded := app.output.SelectSaved(emitted[0].content);
    after := app.Screen();
  }

  /** A top-level component that has just finished one generation. */
  method GeneratedApp(service: Service, storage: LocalStorage, reply: ProviderReply) returns (app: App)
    ensures fresh(app) && fresh(app.output)
    ensures app.output.storage == storage && !app.output.forwardsSelection
    ensures !app.isLoading
  {
    app := new App(service, storage);
    var request := app.Generate(reply);
  }
}
