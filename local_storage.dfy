/** The browser's `localStorage`, as far as the history store uses it: a
    map from keys to strings whose setItem can fail when the quota would be
    exceeded. */
module BrowserStorage {
  import opened Options

  class LocalStorage {
    var items: map<string, string>
    /** Whether a given set of entries stays within the quota. */
    const fits: map<string, string> -> bool

    constructor (fits: map<string, string> -> bool)
      ensures items == map[] && this.fits == fits
    {
      items := map[];
      this.fits := fits;
    }

    /** `getItem(key)`, `None` standing for null. */
    function GetItem(key: string): (r: Option<string>)
      reads this
      ensures r.Some? <==> key in items
      ensures r.Some? ==> r.value == items[key]
    {
      if key in items then Some(items[key]) else None
    }

    /** `setItem(key, value)`: `ok` is false where the browser throws
        QuotaExceededError, and then nothing is written. */
    method SetItem(key: string, value: string) returns (ok: bool)
      modifies this
      ensures ok == fits(old(items)[key := value])
      ensures items == if ok then old(items)[key := value] else old(items)
    {
      ok := fits(items[key := value]);
      if ok {
        items := items[key := value];
      }
    }

    /** `removeItem(key)`. */
    method RemoveItem(key: string)
      modifies this
      ensures items == old(items) - {key}
    {
      items := items - {key};
    }
  }
}
