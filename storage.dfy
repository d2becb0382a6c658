/** The browser's key-value store, reduced to what the dashboard relies on. */
module Storage {
  import opened Optional

  /** One key of local storage. Values are stored JSON-encoded; encoding and decoding are
      taken to be exact inverses, so the slot holds the decoded value itself. `None` is an
      absent key. */
  class Slot<T> {
    var saved: Option<T>

    constructor (initial: Option<T>)
      ensures saved == initial
    {
      saved := initial;
    }

    /** `localStorage.getItem(key)`, decoded. */
    method Read() returns (v: Option<T>)
      ensures v == saved
    {
      v := saved;
    }

    /** `localStorage.setItem(key, JSON.stringify(v))`: overwrites the key wholesale. */
    method Write(v: T)
      modifies this
      ensures saved == Some(v)
    {
      saved := Some(v);
    }
  }

  /** Writing a value and reading the key back gives the same value. */
  method WriteThenRead<T>(slot: Slot<T>, v: T) returns (back: Option<T>)
    modifies slot
    ensures back == Some(v) && slot.saved == Some(v)
  {
    slot.Write(v);
    back := slot.Read();
  }
}
