/**
 * The on-device key-value store (AsyncStorage) as the screens use it: under one
 * key it holds the JSON text of a whole list, written by `setItem` and read back
 * by `getItem` followed by `JSON.parse`.
 *
 * Serialisation is taken as exact: the text written for a list parses back to
 * that list. The store's asynchrony is not modelled; every call completes
 * before the next handler runs. A call that fails (the store is unavailable, or
 * the text under the key does not parse) is an explicit outcome.
 */
module Storage {

  /** What the store holds under one key. */
  datatype Entry<T> =
    | Missing                 // `getItem` resolves to null
    | Json(items: seq<T>)     // the serialisation of a list
    | Malformed               // text that `JSON.parse` rejects

  /** What reading a key and parsing its text yields. */
  datatype ReadResult<T> =
    | Absent                  // nothing stored under the key
    | Found(items: seq<T>)    // the stored list
    | Failed                  // `getItem` rejected, or `JSON.parse` threw

  /** `getItem(key)` followed by `JSON.parse`; `unavailable` says the store rejects the call. */
  function Read<T>(entry: Entry<T>, unavailable: bool): (r: ReadResult<T>)
    ensures r.Found? <==> !unavailable && entry.Json?
    ensures r.Found? ==> r.items == entry.items
    ensures r.Absent? <==> !unavailable && entry.Missing?
  {
    if unavailable then Failed
    else match entry
      case Missing => Absent
      case Json(items) => Found(items)
      case Malformed => Failed
  }

  /** The entry after `setItem(key, JSON.stringify(items))`; a rejected write leaves it as it was. */
  function Written<T>(entry: Entry<T>, items: seq<T>, unavailable: bool): (r: Entry<T>)
    ensures unavailable ==> r == entry
    ensures !unavailable ==> Read(r, false) == Found(items)
  {
    if unavailable then entry else Json(items)
  }

  /** The entry that AsyncStorage holds under one key; it outlives the screens that use it. */
  class StoredList<T> {
    const key: string
    var entry: Entry<T>

    constructor (key: string, entry: Entry<T>)
      ensures this.key == key && this.entry == entry
    {
      this.key := key;
      this.entry := entry;
    }

    /** `JSON.parse(await AsyncStorage.getItem(key))`, failures included. */
    method GetItem(unavailable: bool) returns (r: ReadResult<T>)
      ensures r == Read(entry, unavailable)
    {
      r := Read(entry, unavailable);
    }

    /** `await AsyncStorage.setItem(key, JSON.stringify(items))`; reports whether the write went through. */
    method SetItem(items: seq<T>, unavailable: bool) returns (ok: bool)
      modifies this
      ensures ok == !unavailable
      ensures entry == Written(old(entry), items, unavailable)
    {
      ok := !unavailable;
      if ok {
        entry := Json(items);
      }
    }
  }
}
