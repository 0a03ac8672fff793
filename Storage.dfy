/**
 * The browser's `localStorage`, a string-to-string map shared by the three hooks, and the
 * JSON conversion the hooks use around it, which stays abstract.
 */
module Storage {
  import opened Wrappers

  /** `JSON.stringify` and `JSON.parse` for values of one type; `decode` fails on text it cannot read. */
  datatype Codec<!T> = Codec(encode: T -> string, decode: string -> Option<T>)

  /**
   * What JSON gives for the plain value `x` stored here: its text reads back as `x`, and it
   * is never the empty string.
   */
  predicate RoundTripsAt<T(==)>(c: Codec<T>, x: T)
  {
    c.decode(c.encode(x)) == Some(x) && c.encode(x) != ""
  }

  /** JavaScript truthiness of a `getItem` result: present and not the empty string. */
  predicate Truthy(stored: Option<string>)
  {
    stored.Some? && stored.value != ""
  }

  class LocalStorage {
    var items: map<string, string>

    constructor (initial: map<string, string>)
      ensures items == initial
    {
      items := initial;
    }

    /** `getItem(key)`: the stored text, or `null`. */
    function GetItem(key: string): (r: Option<string>)
      reads this
      ensures r.Some? <==> key in items
      ensures r.Some? ==> r.value == items[key]
    {
      if key in items then Some(items[key]) else None
    }

    /** `setItem(key, value)`. */
    method SetItem(key: string, value: string)
      modifies this
      ensures items == old(items)[key := value]
    {
      items := items[key := value];
    }

    /** `removeItem(key)`. */
    method RemoveItem(key: string)
      modifies this
      ensures items == old(items) - {key}
    {
      items := items - {key};
    }
  }
}
