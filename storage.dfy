/** The browser's `localStorage` and `sessionStorage`: string keys mapped to string values. */
module WebStorage {
  import opened Common

  class Storage {
    var items: map<string, string>

    constructor ()
      ensures items == map[]
    {
      items := map[];
    }

    /** `getItem(key)`: null when the key is absent. */
    function GetItem(key: string): (r: Option<string>)
      reads this
      ensures r.Some? <==> key in items
      ensures r.Some? ==> r.value == items[key]
    {
      if key in items then Some(items[key]) else None
    }

    method SetItem(key: string, value: string)
      modifies this
      ensures items == old(items)[key := value]
    {
      items := items[key := value];
    }

    method RemoveItem(key: string)
      modifies this
      ensures items == old(items) - {key}
    {
      items := items - {key};
    }
  }

  /** The key under which the bearer token is kept in `localStorage`. */
  const AuthTokenKey: string := "auth_token"

  /** The key under which the route to return to after login is kept in `sessionStorage`. */
  const IntendedRouteKey: string := "intended_route"
}
