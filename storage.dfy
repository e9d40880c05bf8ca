/** The browser's on-device storage as the two components that share it
    see it: one slot, under the key "savedQuestions", holding a serialized
    array of saved questions. The JSON text is abstracted to what parsing
    it can give: nothing stored (the key is absent, or holds the empty
    string, which `getItem(...) || '[]'` treats the same), something that
    is not a parsable array, or the array of records. */
module Storage {
  import opened Optional

  /** One saved result; `id` and `timestamp` come from the clock. */
  datatype SavedQuestion = SavedQuestion(id: int, content: string, timestamp: string, title: string)

  datatype Slot = Missing | Corrupt | Stored(items: seq<SavedQuestion>)

  /** `JSON.parse(localStorage.getItem('savedQuestions') || '[]')`, where a
      parse error and a value without array methods both end in the catch. */
  function Parse(slot: Slot): (r: Option<seq<SavedQuestion>>)
    ensures r.None? <==> slot.Corrupt?
    ensures slot.Missing? ==> r == Some([])
    ensures slot.Stored? ==> r == Some(slot.items)
  {
    match slot
    case Missing => Some([])
    case Corrupt => None
    case Stored(items) => Some(items)
  }

  /** The storage area itself, shared by reference. */
  class LocalStorage {
    var slot: Slot

    constructor (initial: Slot)
      ensures slot == initial
    {
      slot := initial;
    }
  }
}
