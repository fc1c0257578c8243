/** The browser's `localStorage`, shared by the settings hook and the history
    store. A stored item is either JSON that parses to the shape its reader
    expects, or text that `JSON.parse` rejects. */
module Storage {
  import opened Types

  datatype StoredValue =
    | SettingsJson(fields: map<string, string>)
    | HistoryJson(entries: seq<HistoryEntry>)
    | Unparseable

  class LocalStorage {
    var items: map<string, StoredValue>

    constructor (initial: map<string, StoredValue>)
      ensures items == initial
    {
      items := initial;
    }

    /** `localStorage.getItem(key)`; `None` stands for `null`. */
    function GetItem(key: string): (v: Option<StoredValue>)
      reads this
      ensures v.Some? <==> key in items
      ensures v.Some? ==> v.value == items[key]
    {
      if key in items then Some(items[key]) else None
    }

    /** `localStorage.setItem(key, value)`, writing succeeds. */
    method SetItem(key: string, value: StoredValue)
      modifies this
      ensures items == old(items)[key := value]
    {
      items := items[key := value];
    }
  }
}
