/**
 * The browser's `localStorage`, reduced to what the client uses: a string-to-string
 * map that the request pipeline and the auth slice both read and write.
 */
module BrowserStorage {
  import opened Wrappers

  /** The two keys under which the session's tokens are kept. */
  const AccessTokenKey: string := "accessToken"
  const RefreshTokenKey: string := "refreshToken"

  /** `getItem`: the value stored under `key`, or none. */
  function Get(items: map<string, string>, key: string): (v: Option<string>)
    ensures v.Some? <==> key in items
    ensures v.Some? ==> v.value == items[key]
  {
    if key in items then Some(items[key]) else None
  }

  class LocalStorage {
    var items: map<string, string>

    constructor(initial: map<string, string>)
      ensures items == initial
    {
      items := initial;
    }

    method GetItem(key: string) returns (v: Option<string>)
      ensures v == Get(items, key)
    {
      v := if key in items then Some(items[key]) else None;
    }

    method SetItem(key: string, value: string)
      modifies this
      ensures items == old(items)[key := value]
    {
      items := items[key := value];
    }

    method RemoveItem(key: string)
      modifies this
      ensures items == old(items) - {key}
    {
      items := items - {key};
    }
  }
}
