/**
 * Browser key-value storage (localStorage and sessionStorage) as the
 * application uses it: values are written as JSON text and parsed back.
 * The JSON text itself is not modelled; a slot holds what `JSON.parse`
 * would yield, or a marker for the text it cannot parse.
 */
module Storage {
  import opened Wrappers

  /** The content of a present key, as the reading helpers see it. */
  datatype Stored<V> =
    | Parsed(value: V)   // text that parses to a value
    | Blank              // the empty string, which the helpers treat as "nothing stored"
    | Unparseable        // text on which `JSON.parse` throws

  /**
   * One storage area. `setItem` and `removeItem` can throw (a full quota,
   * storage disabled); whether they do is the `fault` argument, since it
   * depends on the browser and not on the program.
   */
  class KeyValueStore<V> {
    var items: map<string, Stored<V>>

    constructor (initial: map<string, Stored<V>>)
      ensures items == initial
    {
      items := initial;
    }

    /** `getItem(key)`: None stands for JavaScript's `null`. */
    function GetItem(key: string): Option<Stored<V>>
      reads this
    {
      if key in items then Some(items[key]) else None
    }

    /** `setItem(key, JSON.stringify(value))`; `ok` is false when it throws. */
    method SetItem(key: string, value: V, fault: bool) returns (ok: bool)
      modifies this
      ensures ok == !fault
      ensures items == if fault then old(items) else old(items)[key := Parsed(value)]
      ensures !fault ==> GetItem(key) == Some(Parsed(value))
    {
      ok := !fault;
      if !fault {
        items := items[key := Parsed(value)];
      }
    }

    /** `removeItem(key)`; `ok` is false when it throws. */
    method RemoveItem(key: string, fault: bool) returns (ok: bool)
      modifies this
      ensures ok == !fault
      ensures items == if fault then old(items) else old(items) - {key}
      ensures !fault ==> GetItem(key) == None
    {
      ok := !fault;
      if !fault {
        items := items - {key};
      }
    }
  }
}
