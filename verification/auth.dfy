/** The session provider: the signed-in account is kept in component state
    and mirrored under the key 'user' of the browser's local storage, as
    serialised text. Serialisation is left abstract: the provider is given
    an `encode` and a `decode` function. */
module Auth {
  import opened Js
  import opened Records

  const UserKey := "user"

  /** Where `logout` sends the browser: the login page of the deployed app. */
  const LoginLocation := "/fac-dss-fe/"

  /** What `JSON.parse(text) || null` makes of stored text: it throws on
      malformed text, a falsy result (such as the text "null") becomes null,
      anything else is taken as the account. */
  datatype Decoded = Malformed | Falsy | Parsed(account: Account)

  /** The provider's first render: it either starts with a user (or none), or
      throws because the stored text does not parse. */
  datatype Boot = Booted(user: Option<Account>) | ParseThrows

  /** `useState(JSON.parse(localStorage.getItem('user')) || null)`: with no
      stored entry, `getItem` gives null, which parses to null. */
  function InitialUser(storage: map<string, string>, decode: string -> Decoded): (b: Boot)
    ensures UserKey !in storage ==> b == Booted(None)
    ensures b.ParseThrows? <==> UserKey in storage && decode(storage[UserKey]).Malformed?
    ensures b.Booted? && b.user.Some? ==> UserKey in storage && decode(storage[UserKey]) == Parsed(b.user.value)
    ensures UserKey in storage && decode(storage[UserKey]).Parsed? ==> b == Booted(Some(decode(storage[UserKey]).account))
    ensures UserKey in storage && decode(storage[UserKey]).Falsy? ==> b == Booted(None)
  {
    if UserKey !in storage then Booted(None)
    else
      match decode(storage[UserKey])
      case Malformed => ParseThrows
      case Falsy => Booted(None)
      case Parsed(a) => Booted(Some(a))
  }

  /** `localStorage.setItem('user', text)`. */
  function StoreUser(storage: map<string, string>, text: string): map<string, string> {
    storage[UserKey := text]
  }

  /** `localStorage.removeItem('user')`. */
  function ClearUser(storage: map<string, string>): map<string, string> {
    storage - {UserKey}
  }

  /** Signing in and out touch the 'user' entry and nothing else in storage. */
  lemma OnlyUserKeyChanges(storage: map<string, string>, text: string, k: string)
    requires k != UserKey
    ensures k in StoreUser(storage, text) <==> k in storage
    ensures k in ClearUser(storage) <==> k in storage
    ensures k in storage ==> StoreUser(storage, text)[k] == storage[k] && ClearUser(storage)[k] == storage[k]
    ensures UserKey in StoreUser(storage, text) && StoreUser(storage, text)[UserKey] == text
    ensures UserKey !in ClearUser(storage)
  {
  }

  /** A reload after signing in restores the same account, provided decoding
      undoes encoding. */
  lemma ReloadAfterLogin(storage: map<string, string>, encode: Account -> string,
                         decode: string -> Decoded, d: Account)
    requires decode(encode(d)) == Parsed(d)
    ensures InitialUser(StoreUser(storage, encode(d)), decode) == Booted(Some(d))
  {
  }

  /** A reload after signing out starts with no user. */
  lemma ReloadAfterLogout(storage: map<string, string>, decode: string -> Decoded)
    ensures InitialUser(ClearUser(storage), decode) == Booted(None)
  {
  }

  /** `AuthProvider`: the session state and its two operations. */
  class AuthProvider {
    var storage: map<string, string>
    var user: Option<Account>
    const encode: Account -> string
    const decode: string -> Decoded

    /** The first render; a stored entry that does not parse makes it throw,
        so a provider exists only when the stored text parses. */
    constructor (stored: map<string, string>, encode: Account -> string, decode: string -> Decoded)
      requires InitialUser(stored, decode).Booted?
      ensures storage == stored && this.encode == encode && this.decode == decode
      ensures user == InitialUser(stored, decode).user
    {
      storage := stored;
      this.encode := encode;
      this.decode := decode;
      user := InitialUser(stored, decode).user;
    }

    /** `login(userData)`: store the serialised account, then make it current. */
    method Login(d: Account)
      modifies this
      ensures storage == StoreUser(old(storage), encode(d))
      ensures user == Some(d)
    {
      storage := StoreUser(storage, encode(d));
      user := Some(d);
    }

    /** `logout()`: drop the stored entry and the current user, then send the
        browser to the login page. */
    method Logout() returns (location: string)
      modifies this
      ensures storage == ClearUser(old(storage))
      ensures user == None
      ensures location == LoginLocation
    {
      storage := ClearUser(storage);
      user := None;
      location := LoginLocation;
    }
  }
}
