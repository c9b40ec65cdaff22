/** The client's authentication state (`AuthProvider`): the signed-in user,
    the bearer token and a loading flag, backed by two entries of the
    browser's local storage, which outlives any one provider. A page load
    mounts a fresh provider over the same storage. */
module AuthContext {
  import opened Base
  import opened Frames

  const TokenKey: string := "authToken"
  const UserKey: string := "user"
  const DefaultServerUrl: string := "http://localhost:3001"
  const GoogleAuthPath: string := "/auth/google"
  const HomePath: string := "/"
  const OutsideProviderError: string := "useAuth must be used within an AuthProvider"

  /** The user object the server hands to the client. */
  datatype Account = Account(id: string, email: string, name: string, picture: Option<string>)

  // ----- the stored user: JSON.stringify and JSON.parse ------------------------

  const IdKey: string := "{\"id\":\""
  const EmailKey: string := ",\"email\":\""
  const NameKey: string := ",\"name\":\""
  const PictureKey: string := ",\"picture\":\""
  const ObjectEnd: string := "}"

  /** A string's escaped body and its closing quote, then what follows. */
  function Quoted(x: string, rest: string): string {
    Escape(x) + "\"" + rest
  }

  /** `JSON.stringify(user)`: the fields in declaration order, `picture` left
      out when it is undefined. */
  function UserJson(u: Account): (json: string)
    ensures IdKey <= json
  {
    var tail := match u.picture
      case None => ObjectEnd
      case Some(p) => PictureKey + Quoted(p, ObjectEnd);
    IdKey + Quoted(u.id, EmailKey + Quoted(u.email, NameKey + Quoted(u.name, tail)))
  }

  /** The body of a JSON string up to its closing quote: the characters it
      denotes and the text after the quote. None when the body is malformed
      or the quote is missing. */
  function ScanString(s: string): Option<(string, string)>
    decreases |s|
  {
    if s == [] then None
    else if s[0] == '"' then Some(("", s[1..]))
    else
      match Head(s)
      case None => None
      case Some((c, k)) =>
        match ScanString(s[k..])
        case None => None
        case Some((t, rest)) => Some(([c] + t, rest))
  }

  /** Scanning steps over the escape of one character. */
  lemma ScanEscapeChar(c: char, tail: string, t: string, r: string)
    requires ScanString(tail) == Some((t, r))
    ensures ScanString(EscapeChar(c) + tail) == Some(([c] + t, r))
  {
    HeadEscapeChar(c, tail);
    assert (EscapeChar(c) + tail)[|EscapeChar(c)|..] == tail;
  }

  lemma QuotedCons(x: string, rest: string)
    requires x != []
    ensures Quoted(x, rest) == EscapeChar(x[0]) + Quoted(x[1..], rest)
  {
    assert Escape(x) == EscapeChar(x[0]) + Escape(x[1..]);
  }

  /** Scanning reads an escaped string back up to its closing quote. */
  lemma {:induction false} ScanQuoted(x: string, rest: string)
    ensures ScanString(Quoted(x, rest)) == Some((x, rest))
  {
    if x != [] {
      QuotedCons(x, rest);
      ScanQuoted(x[1..], rest);
      ScanEscapeChar(x[0], Quoted(x[1..], rest), x[1..], rest);
      assert [x[0]] + x[1..] == x;
    } else {
      assert Quoted(x, rest) == "\"" + rest;
    }
  }

  /** A key, then a string field: the field's value and what follows it. */
  function Field(key: string, s: string): Option<(string, string)> {
    if key <= s then ScanString(s[|key|..]) else None
  }

  lemma FieldQuoted(key: string, x: string, rest: string)
    ensures Field(key, key + Quoted(x, rest)) == Some((x, rest))
  {
    assert (key + Quoted(x, rest))[|key|..] == Quoted(x, rest);
    ScanQuoted(x, rest);
  }

  /** `JSON.parse` on the shape `UserJson` produces; None for any other text. */
  function ParseUser(json: string): Option<Account> {
    var id := Field(IdKey, json);
    if id.None? then None
    else
      var email := Field(EmailKey, id.value.1);
      if email.None? then None
      else
        var name := Field(NameKey, email.value.1);
        if name.None? then None
        else if name.value.1 == ObjectEnd then
          Some(Account(id.value.0, email.value.0, name.value.0, None))
        else
          var picture := Field(PictureKey, name.value.1);
          if picture.Some? && picture.value.1 == ObjectEnd then
            Some(Account(id.value.0, email.value.0, name.value.0, Some(picture.value.0)))
          else None
  }

  /** Every user survives the trip through local storage. */
  lemma ParseUserJson(u: Account)
    ensures ParseUser(UserJson(u)) == Some(u)
  {
    var tail := match u.picture
      case None => ObjectEnd
      case Some(p) => PictureKey + Quoted(p, ObjectEnd);
    FieldQuoted(IdKey, u.id, EmailKey + Quoted(u.email, NameKey + Quoted(u.name, tail)));
    FieldQuoted(EmailKey, u.email, NameKey + Quoted(u.name, tail));
    FieldQuoted(NameKey, u.name, tail);
    if u.picture.Some? {
      assert tail[0] == ',';
      FieldQuoted(PictureKey, u.picture.value, ObjectEnd);
    }
  }

  // ----- storage and state -----------------------------------------------------

  /** `localStorage.getItem(key)`: null for a missing key. */
  function Get(items: map<string, string>, key: string): Option<string> {
    if key in items then Some(items[key]) else None
  }

  /** What `setAuthData` leaves in storage. */
  function StoreSession(items: map<string, string>, token: string, u: Account): (r: map<string, string>)
    ensures Get(r, TokenKey) == Some(token) && Get(r, UserKey) == Some(UserJson(u))
    ensures forall k :: k != TokenKey && k != UserKey ==> Get(r, k) == Get(items, k)
  {
    items[TokenKey := token][UserKey := UserJson(u)]
  }

  /** What `logout` leaves in storage. */
  function ClearSession(items: map<string, string>): (r: map<string, string>)
    ensures Get(r, TokenKey).None? && Get(r, UserKey).None?
    ensures forall k :: k != TokenKey && k != UserKey ==> Get(r, k) == Get(items, k)
  {
    items - {TokenKey, UserKey}
  }

  datatype AuthState = AuthState(user: Option<Account>, token: Option<string>, loading: bool)

  /** A freshly created provider: no user, no token, loading. */
  const Initial: AuthState := AuthState(None, None, true)

  /** The mount effect: restore the session when both entries are present and
      non-empty, then clear the loading flag. When the stored user does not
      parse, `JSON.parse` throws after the token was set, and loading stays on. */
  function Mounted(s: AuthState, items: map<string, string>): AuthState {
    var savedToken, savedUser := Get(items, TokenKey), Get(items, UserKey);
    if Truthy(savedToken) && Truthy(savedUser) then
      match ParseUser(savedUser.value)
      case Some(u) => AuthState(Some(u), savedToken, false)
      case None => s.(token := savedToken)
    else s.(loading := false)
  }

  /** Both entries are present and non-empty but the user does not parse. */
  predicate UnreadableUser(items: map<string, string>) {
    Truthy(Get(items, TokenKey)) && Truthy(Get(items, UserKey)) && ParseUser(Get(items, UserKey).value).None?
  }

  /** The session is restored only from both entries; without them the state
      keeps its user and token and only stops loading. */
  lemma MountedNeedsBothEntries(s: AuthState, items: map<string, string>)
    ensures Mounted(s, items).token != s.token ==> Truthy(Get(items, TokenKey)) && Truthy(Get(items, UserKey))
    ensures Mounted(s, items).user != s.user ==> Truthy(Get(items, TokenKey)) && Truthy(Get(items, UserKey))
    ensures !UnreadableUser(items) ==> !Mounted(s, items).loading
  {
  }

  /** With empty storage a new provider ends up not loading, with no user and
      no token. */
  lemma EmptyStorageMount()
    ensures Mounted(Initial, map[]) == AuthState(None, None, false)
  {
  }

  /** A reload after `setAuthData` restores the same user and token. */
  lemma ReloadRestoresSession(items: map<string, string>, token: string, u: Account)
    requires token != ""
    ensures Mounted(Initial, StoreSession(items, token, u)) == AuthState(Some(u), Some(token), false)
  {
    ParseUserJson(u);
  }

  /** A reload after `logout` starts signed out. */
  lemma ReloadAfterLogout(items: map<string, string>)
    ensures Mounted(Initial, ClearSession(items)) == AuthState(None, None, false)
  {
  }

  /** `useAuth`: the provider's value, or the error thrown outside a provider. */
  function UseAuth<T>(context: Option<T>): (r: Result<T, string>)
    ensures r.Ok? <==> context.Some?
    ensures r.Ok? ==> r.value == context.value
    ensures r.Err? ==> r.error == OutsideProviderError
  {
    match context
    case Some(value) => Ok(value)
    case None => Err(OutsideProviderError)
  }

  /** The address `login` sends the browser to. */
  function LoginUrl(serverUrl: Option<string>): (url: string)
    ensures Truthy(serverUrl) ==> url == serverUrl.value + GoogleAuthPath
    ensures !Truthy(serverUrl) ==> url == DefaultServerUrl + GoogleAuthPath
  {
    OrElse(serverUrl, DefaultServerUrl) + GoogleAuthPath
  }

  /** `window.localStorage`. */
  class LocalStorage {
    var items: map<string, string>

    constructor(items: map<string, string>)
      ensures this.items == items
    {
      this.items := items;
    }
  }

  class AuthProvider {
    var user: Option<Account>
    var token: Option<string>
    var loading: bool
    /** The last address assigned to `window.location.href`, if any. */
    var location: Option<string>
    const storage: LocalStorage

    function State(): AuthState
      reads this
    {
      AuthState(user, token, loading)
    }

    constructor(storage: LocalStorage)
      ensures State() == Initial && location == None && this.storage == storage
    {
      user, token, loading := None, None, true;
      location := None;
      this.storage := storage;
    }

    /** The mount effect; `threw` when `JSON.parse` rejects the stored user. */
    method Mount() returns (threw: bool)
      modifies this
      ensures State() == Mounted(old(State()), storage.items)
      ensures threw <==> UnreadableUser(storage.items)
      ensures location == old(location)
    {
      var savedToken := Get(storage.items, TokenKey);
      var savedUser := Get(storage.items, UserKey);
      if Truthy(savedToken) && Truthy(savedUser) {
        token := savedToken;
        var parsed := ParseUser(savedUser.value);
        if parsed.None? {
          return true;
        }
        user := parsed;
      }
      loading := false;
      threw := false;
    }

    /** `setAuthData`: set the state and write both entries. */
    method SetAuthData(t: string, u: Account)
      modifies this, storage
      ensures State() == old(State()).(user := Some(u), token := Some(t))
      ensures storage.items == StoreSession(old(storage.items), t, u)
      ensures location == old(location)
    {
      token := Some(t);
      user := Some(u);
      storage.items := storage.items[TokenKey := t];
      storage.items := storage.items[UserKey := UserJson(u)];
    }

    /** `login`: raise the loading flag, then leave for the sign-in page. */
    method Login(serverUrl: Option<string>)
      modifies this
      ensures State() == old(State()).(loading := true)
      ensures location == Some(LoginUrl(serverUrl))
    {
      loading := true;
      location := Some(LoginUrl(serverUrl));
    }

    /** `logout`: forget the user and token, remove both entries, go home. */
    method Logout()
      modifies this, storage
      ensures State() == old(State()).(user := None, token := None)
      ensures storage.items == ClearSession(old(storage.items))
      ensures location == Some(HomePath)
    {
      user := None;
      token := None;
      storage.items := storage.items - {TokenKey};
      storage.items := storage.items - {UserKey};
      location := Some(HomePath);
    }
  }
}
