/**
  The session store `StorageService`: the user profile and the bearer token
  kept in the browser's `localStorage` under two fixed keys. Outside a
  browser (server-side rendering) the guarded accessors do nothing and
  return null.

  `localStorage` is a map from keys to strings. `JSON.parse` and
  `JSON.stringify` are not part of this model: they are passed in as
  functions, `None` standing for "threw".
 */
module Storage {
  import opened Common

  const UserDataKey: string := "user_data"
  const UserTokenKey: string := "user_token"

  /** A property value of the stored user profile. */
  datatype Field =
    | Text(s: string)
    | Number(n: int)
    | Bool(b: bool)
    | Null
    | Structured(shown: string)  // an object or array, with its `String(...)` form

  /** The parsed user profile: an object's properties. */
  type Profile = map<string, Field>

  /** JavaScript truthiness of a property value. */
  predicate Truthy(f: Field) {
    match f
    case Text(s) => s != ""
    case Number(n) => n != 0
    case Bool(b) => b
    case Null => false
    case Structured(_) => true
  }

  /** `String(value)`. */
  function Show(f: Field): string {
    match f
    case Text(s) => s
    case Number(n) => IntToString(n)
    case Bool(b) => if b then "true" else "false"
    case Null => "null"
    case Structured(shown) => shown
  }

  /** `getToken()` over the contents of `localStorage`. */
  function TokenIn(browser: bool, items: map<string, string>): (r: Option<string>)
    ensures !browser ==> r == None
    ensures browser ==> (r.Some? <==> UserTokenKey in items)
    ensures r.Some? ==> r.value == items[UserTokenKey]
  {
    if !browser then None
    else if UserTokenKey in items then Some(items[UserTokenKey])
    else None
  }

  /** `getUserData()`: null when absent or empty, when parsing throws, or outside a browser. */
  function UserDataIn(browser: bool, items: map<string, string>, parse: string -> Option<Profile>): (r: Option<Profile>)
    ensures !browser ==> r == None
    ensures (UserDataKey !in items || items[UserDataKey] == "") ==> r == None
    ensures browser && UserDataKey in items && items[UserDataKey] != "" ==> r == parse(items[UserDataKey])
  {
    if !browser then None
    else if UserDataKey in items && items[UserDataKey] != "" then parse(items[UserDataKey])
    else None
  }

  /** `get(key)`: the string form of a truthy profile property, else null. */
  function FieldIn(browser: bool, items: map<string, string>, parse: string -> Option<Profile>, key: string): (r: Option<string>)
    ensures r.Some? <==> (UserDataIn(browser, items, parse).Some?
                          && key in UserDataIn(browser, items, parse).value
                          && Truthy(UserDataIn(browser, items, parse).value[key]))
    ensures r.Some? ==> r.value == Show(UserDataIn(browser, items, parse).value[key])
  {
    match UserDataIn(browser, items, parse)
    case None => None
    case Some(data) => if key in data && Truthy(data[key]) then Some(Show(data[key])) else None
  }

  /** `setToken(t)`: in a browser only the token entry changes. */
  function WithToken(browser: bool, items: map<string, string>, token: string): (r: map<string, string>)
    ensures !browser ==> r == items
    ensures browser ==> r.Keys == items.Keys + {UserTokenKey} && r[UserTokenKey] == token
    ensures forall k :: k in items && k != UserTokenKey ==> r[k] == items[k]
  {
    if browser then items[UserTokenKey := token] else items
  }

  /**
    `setUserData(data)`, given what `JSON.stringify` produced (`None`: it
    threw): in a browser only the profile entry changes, and only when
    serializing succeeded.
   */
  function WithUserData(browser: bool, items: map<string, string>, serialized: Option<string>): (r: map<string, string>)
    ensures !browser || serialized.None? ==> r == items
    ensures browser && serialized.Some? ==> r.Keys == items.Keys + {UserDataKey} && r[UserDataKey] == serialized.value
    ensures forall k :: k in items && k != UserDataKey ==> r[k] == items[k]
  {
    if browser && serialized.Some? then items[UserDataKey := serialized.value] else items
  }

  /** `clearUserData()`: in a browser drops the profile and the token, and nothing else. */
  function WithoutUserData(browser: bool, items: map<string, string>): (r: map<string, string>)
    ensures !browser ==> r == items
    ensures browser ==> r.Keys == items.Keys - {UserDataKey, UserTokenKey}
    ensures forall k :: k in r ==> r[k] == items[k]
  {
    if browser then items - {UserDataKey, UserTokenKey} else items
  }

  /** In a browser, the token read back is the one last written, and the profile entry stays. */
  lemma SetTokenThenGet(items: map<string, string>, token: string)
    ensures TokenIn(true, WithToken(true, items, token)) == Some(token)
    ensures UserDataKey in WithToken(true, items, token) <==> UserDataKey in items
    ensures UserDataKey in items ==> WithToken(true, items, token)[UserDataKey] == items[UserDataKey]
  {
  }

  /** A profile whose serialization parses back is read back unchanged. */
  lemma SetUserDataThenGet(items: map<string, string>, data: Profile, text: string, parse: string -> Option<Profile>)
    requires text != "" && parse(text) == Some(data)
    ensures UserDataIn(true, WithUserData(true, items, Some(text)), parse) == Some(data)
    ensures TokenIn(true, WithUserData(true, items, Some(text))) == TokenIn(true, items)
  {
  }

  /** After `clearUserData()` in a browser neither the token nor the profile can be read. */
  lemma ClearedReadsNothing(items: map<string, string>, parse: string -> Option<Profile>, key: string)
    ensures TokenIn(true, WithoutUserData(true, items)) == None
    ensures UserDataIn(true, WithoutUserData(true, items), parse) == None
    ensures FieldIn(true, WithoutUserData(true, items), parse, key) == None
  {
  }

  /** The singleton `storageService` over `localStorage`. */
  class StorageService {
    /** Whether the code runs in a browser (`$app/environment`'s `browser`). */
    const browser: bool
    /** The contents of `localStorage`. */
    var items: map<string, string>

    constructor (browser: bool, items: map<string, string>)
      ensures this.browser == browser && this.items == items
    {
      this.browser := browser;
      this.items := items;
    }

    function GetUserData(parse: string -> Option<Profile>): Option<Profile>
      reads this
    {
      UserDataIn(browser, items, parse)
    }

    function Get(parse: string -> Option<Profile>, key: string): Option<string>
      reads this
    {
      FieldIn(browser, items, parse, key)
    }

    function GetToken(): Option<string>
      reads this
    {
      TokenIn(browser, items)
    }

    /** Stores the profile; a throwing `JSON.stringify` is caught and stores nothing. */
    method SetUserData(data: Profile, stringify: Profile -> Option<string>)
      modifies this
      ensures items == WithUserData(browser, old(items), stringify(data))
      ensures !browser ==> items == old(items)
      ensures GetToken() == old(GetToken())
    {
      if !browser {
        return;
      }
      var serialized := stringify(data);
      if serialized.Some? {
        items := items[UserDataKey := serialized.value];
      }
    }

    method ClearUserData()
      modifies this
      ensures items == WithoutUserData(browser, old(items))
      ensures !browser ==> items == old(items)
      ensures browser ==> UserDataKey !in items && UserTokenKey !in items
      ensures browser ==> GetToken() == None
    {
      if !browser {
        return;
      }
      items := items - {UserDataKey};
      items := items - {UserTokenKey};
    }

    /**
      Removes only the token. It has no browser guard: outside a browser
      `localStorage` is not defined and the call throws a `ReferenceError`,
      returned here as `thrown`.
     */
    method ClearToken() returns (thrown: bool)
      modifies this
      ensures thrown == !browser
      ensures items == if browser then old(items) - {UserTokenKey} else old(items)
      ensures browser ==> GetToken() == None
    {
      if !browser {
        return true;
      }
      items := items - {UserTokenKey};
      return false;
    }

    method SetToken(token: string)
      modifies this
      ensures items == WithToken(browser, old(items), token)
      ensures browser ==> GetToken() == Some(token)
      ensures !browser ==> items == old(items)
      ensures forall parse :: GetUserData(parse) == old(GetUserData(parse))
    {
      if !browser {
        return;
      }
      items := items[UserTokenKey := token];
    }
  }
}
