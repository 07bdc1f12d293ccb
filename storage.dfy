/**
 * The browser's `localStorage` together with `JSON.parse`/`JSON.stringify`,
 * seen from the two hooks: a string-keyed store whose entries, once read,
 * are either blank, malformed JSON, or a parsed JSON document.
 */
module Storage {
  import opened Optional

  /** A parsed JSON value. An object is the key/value view JavaScript gives it. */
  datatype Json =
    | JNull
    | JBool(b: bool)
    | JNum(n: real)
    | JStr(s: string)
    | JArr(items: seq<Json>)
    | JObj(fields: map<string, Json>)

  /** What `getItem` followed by `JSON.parse` makes of the text stored under a key. */
  datatype Stored =
    | Blank            // the empty string: falsy, so never handed to JSON.parse
    | Malformed        // JSON.parse throws
    | Doc(value: Json) // JSON.parse succeeds

  /**
   * The document stored under `key`, or None when `getItem` returns null (no
   * entry), the text is empty, or it does not parse: the three cases both
   * hooks replace by their fallback value.
   */
  function Parsed(items: map<string, Stored>, key: string): (r: Option<Json>)
    ensures r.Some? <==> key in items && items[key].Doc?
    ensures r.Some? ==> items[key] == Doc(r.value)
  {
    if key in items && items[key].Doc? then Some(items[key].value) else None
  }

  /** The origin's `localStorage`, shared by every hook instance. */
  class LocalStorage {
    var items: map<string, Stored>

    constructor (initial: map<string, Stored>)
      ensures items == initial
    {
      items := initial;
    }

    /** `setItem(key, JSON.stringify(value))`: overwrites the whole entry. */
    method SetItem(key: string, value: Json)
      modifies this
      ensures items == old(items)[key := Doc(value)]
      ensures Parsed(items, key) == Some(value)
    {
      items := items[key := Doc(value)];
    }
  }
}
