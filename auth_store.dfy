/**
 * The user store of src/stores/authStore.ts: the signed-in user's name,
 * id, tokens and expiry, mirrored to `localStorage`, and the decoding of
 * the payload segment of an access token (a JSON Web Token, RFC 7519).
 *
 * `localStorage` is a map from keys to strings. `atob`, `JSON.parse` and
 * `Number` are foreign calls and enter as partial functions.
 */
module AuthStore {
  import opened Wrappers
  import opened Text

  /** The claims the store reads from an access token. */
  datatype JwtPayload = JwtPayload(userName: string, userId: int, exp: int, iat: int)

  /** What a login or a refresh hands to the store. */
  datatype TokenPair = TokenPair(accessToken: string, refreshToken: string)

  /** The five fields of the store's state; `userId` is kept as its decimal text. */
  datatype UserState = UserState(
    userName: Option<string>,
    userId: Option<string>,
    accessToken: Option<string>,
    refreshToken: Option<string>,
    expiresAt: Option<int>)

  type Storage = map<string, string>

  const UserNameKey: string := "userName"
  const UserIdKey: string := "userId"
  const AccessTokenKey: string := "accessToken"
  const RefreshTokenKey: string := "refreshToken"
  const ExpiresAtKey: string := "expiresAt"
  const InvalidJwt: string := "Invalid JWT token"

  /** `localStorage.getItem(key)`: null for a missing key. */
  function GetItem(storage: Storage, key: string): (r: Option<string>)
    ensures r.Some? <==> key in storage
    ensures r.Some? ==> r.value == storage[key]
  {
    if key in storage then Some(storage[key]) else None
  }

  /** A string that JavaScript treats as true: present and not empty. */
  predicate Truthy(s: Option<string>) {
    s.Some? && s.value != ""
  }

  /** Signed in, as the route guard judges it: both tokens are truthy. */
  predicate IsAuthenticated(state: UserState) {
    Truthy(state.accessToken) && Truthy(state.refreshToken)
  }

  // ---------------------------------------------------------------
  // decodeJwt
  // ---------------------------------------------------------------

  /**
   * The base64url alphabet (section 5 of RFC 4648) mapped onto the base64
   * alphabet (section 4): every `-` becomes `+`, every `_` becomes `/`.
   */
  function UrlToStandardBase64(s: string): (r: string)
    ensures |r| == |s|
    ensures forall i :: 0 <= i < |s| ==>
      r[i] == (if s[i] == '-' then '+' else if s[i] == '_' then '/' else s[i])
    ensures '-' !in r && '_' !in r
  {
    ReplaceAllChar(ReplaceAllChar(s, '-', '+'), '_', '/')
  }

  /** The encoder's direction of the same swap. */
  function StandardToUrlBase64(s: string): (r: string)
    ensures |r| == |s|
    ensures forall i :: 0 <= i < |s| ==>
      r[i] == (if s[i] == '+' then '-' else if s[i] == '/' then '_' else s[i])
  {
    ReplaceAllChar(ReplaceAllChar(s, '+', '-'), '/', '_')
  }

  /** Text written in the base64url alphabet comes back unchanged through both swaps. */
  lemma Base64AlphabetRoundTrip(s: string)
    requires '+' !in s && '/' !in s
    ensures StandardToUrlBase64(UrlToStandardBase64(s)) == s
  {
    var r := StandardToUrlBase64(UrlToStandardBase64(s));
    forall i | 0 <= i < |s| ensures r[i] == s[i] {
      assert s[i] != '+' && s[i] != '/';
    }
  }

  /**
   * `decodeJwt`: the second `.`-separated segment, its alphabet swapped,
   * decoded by `atob` and parsed as JSON. A missing segment, an `atob`
   * failure or a parse failure all become `Invalid JWT token`.
   */
  function DecodeJwt(token: string, atob: string -> Option<string>, parseJson: string -> Option<JwtPayload>)
    : (r: Result<JwtPayload, string>)
    ensures r.Failure? ==> r.error == InvalidJwt
    ensures r.Success? ==> Contains(token, ".")
  {
    var segments := Split(token, ".");
    if |segments| < 2 then
      Failure(InvalidJwt)
    else
      SplitFoundSeparator(token, ".");
      var decoded := atob(UrlToStandardBase64(segments[1]));
      if decoded.None? then Failure(InvalidJwt)
      else
        var payload := parseJson(decoded.value);
        if payload.None? then Failure(InvalidJwt) else Success(payload.value)
  }

  /** Of a compact token `header.payload.signature`, exactly the payload segment is decoded. */
  lemma DecodeJwtReadsPayloadSegment(header: string, payload: string, signature: string,
                                     atob: string -> Option<string>, parseJson: string -> Option<JwtPayload>)
    requires '.' !in header && '.' !in payload
    ensures var decoded := atob(UrlToStandardBase64(payload));
      DecodeJwt(header + "." + payload + "." + signature, atob, parseJson)
        == if decoded.Some? && parseJson(decoded.value).Some? then Success(parseJson(decoded.value).value)
           else Failure(InvalidJwt)
  {
    var token := header + "." + payload + "." + signature;
    assert token == header + ['.'] + (payload + ['.'] + signature);
    SplitAtFirst(header, '.', payload + ['.'] + signature);
    SplitAtFirst(payload, '.', signature);
    assert Split(token, ".")[1] == payload;
  }

  // ---------------------------------------------------------------
  // State and storage
  // ---------------------------------------------------------------

  /**
   * `Number(localStorage.getItem('expiresAt')) || null`: a missing item
   * reads as 0, and 0 and NaN (`toNumber` gives None) both become null.
   */
  function ExpiresAtFromStorage(stored: Option<string>, toNumber: string -> Option<int>): (r: Option<int>)
    ensures r.Some? ==> r.value != 0 && stored.Some? && toNumber(stored.value) == r
    ensures stored.Some? && toNumber(stored.value).Some? && toNumber(stored.value).value != 0 ==> r == toNumber(stored.value)
  {
    if stored.None? then None
    else
      var n := toNumber(stored.value);
      if n.None? || n.value == 0 then None else n
  }

  /** The store's `state()`: every field read back from storage. */
  function InitialState(storage: Storage, toNumber: string -> Option<int>): UserState {
    UserState(
      GetItem(storage, UserNameKey),
      GetItem(storage, UserIdKey),
      GetItem(storage, AccessTokenKey),
      GetItem(storage, RefreshTokenKey),
      ExpiresAtFromStorage(GetItem(storage, ExpiresAtKey), toNumber))
  }

  /** With nothing stored, nobody is signed in. */
  lemma EmptyStorageIsSignedOut(toNumber: string -> Option<int>)
    ensures InitialState(map[], toNumber) == UserState(None, None, None, None, None)
    ensures !IsAuthenticated(InitialState(map[], toNumber))
  {
  }

  /** The items `login` writes. */
  function LoginItems(payload: JwtPayload, response: TokenPair): Storage {
    map[UserNameKey := payload.userName,
        UserIdKey := IntToDecimal(payload.userId),
        AccessTokenKey := response.accessToken,
        RefreshTokenKey := response.refreshToken,
        ExpiresAtKey := IntToDecimal(payload.exp * 1000)]
  }

  /** The items `updateTokens` writes. */
  function RefreshItems(payload: JwtPayload, response: TokenPair): Storage {
    map[AccessTokenKey := response.accessToken,
        RefreshTokenKey := response.refreshToken,
        ExpiresAtKey := IntToDecimal(payload.exp * 1000)]
  }

  /**
   * What a successful `updateTokens(tokens)` leaves behind: both tokens and
   * the expiry `exp * 1000` replaced, in the state and in storage, and the
   * name and id kept.
   */
  predicate TokensUpdated(before: UserState, after: UserState, storedBefore: Storage, storedAfter: Storage,
                          tokens: TokenPair, payload: JwtPayload)
  {
    after == before.(accessToken := Some(tokens.accessToken),
                     refreshToken := Some(tokens.refreshToken),
                     expiresAt := Some(payload.exp * 1000))
    && storedAfter == storedBefore + RefreshItems(payload, tokens)
  }

  /**
   * A reload right after a login restores the state the login set, provided
   * the expiry is not 0 and `Number` reads back the decimal text it was given.
   */
  lemma ReloadAfterLogin(storage: Storage, payload: JwtPayload, response: TokenPair, toNumber: string -> Option<int>)
    requires payload.exp != 0
    requires toNumber(IntToDecimal(payload.exp * 1000)) == Some(payload.exp * 1000)
    ensures InitialState(storage + LoginItems(payload, response), toNumber)
      == UserState(Some(payload.userName), Some(IntToDecimal(payload.userId)),
                   Some(response.accessToken), Some(response.refreshToken), Some(payload.exp * 1000))
  {
    var s := storage + LoginItems(payload, response);
    assert GetItem(s, ExpiresAtKey) == Some(IntToDecimal(payload.exp * 1000));
  }

  /** An expiry of 0 does not survive a reload: it reads back as null. */
  lemma ZeroExpiryIsLostOnReload(storage: Storage, payload: JwtPayload, response: TokenPair, toNumber: string -> Option<int>)
    requires payload.exp == 0
    requires toNumber("0") == Some(0)
    ensures InitialState(storage + LoginItems(payload, response), toNumber).expiresAt == None
  {
    assert IntToDecimal(payload.exp * 1000) == "0";
  }

  /** A refresh leaves the stored name and id where they were. */
  lemma RefreshKeepsStoredIdentity(storage: Storage, payload: JwtPayload, response: TokenPair, toNumber: string -> Option<int>)
    ensures InitialState(storage + RefreshItems(payload, response), toNumber).userName == GetItem(storage, UserNameKey)
    ensures InitialState(storage + RefreshItems(payload, response), toNumber).userId == GetItem(storage, UserIdKey)
    ensures InitialState(storage + RefreshItems(payload, response), toNumber).accessToken == Some(response.accessToken)
  {
    var s := storage + RefreshItems(payload, response);
    assert UserNameKey !in RefreshItems(payload, response) && UserIdKey !in RefreshItems(payload, response);
    assert GetItem(s, UserNameKey) == GetItem(storage, UserNameKey);
    assert GetItem(s, UserIdKey) == GetItem(storage, UserIdKey);
  }

  /**
   * `logout` as written: `$reset()` runs the store's `state()` again, which
   * re-reads the items still in storage, and only then is storage cleared.
   * Returns the state and the storage afterwards.
   */
  function LogoutAsWritten(storage: Storage, toNumber: string -> Option<int>): (r: (UserState, Storage))
    ensures r.1 == map[]
  {
    (InitialState(storage, toNumber), map[])
  }

  /** As written, a signed-in user whose tokens are stored stays signed in after `logout`. */
  lemma LogoutAsWrittenKeepsSession(storage: Storage, toNumber: string -> Option<int>)
    requires Truthy(GetItem(storage, AccessTokenKey)) && Truthy(GetItem(storage, RefreshTokenKey))
    ensures IsAuthenticated(LogoutAsWritten(storage, toNumber).0)
    ensures LogoutAsWritten(storage, toNumber).0.accessToken == Some(storage[AccessTokenKey])
  {
  }

  /** The store object: its five state fields and the storage they mirror. */
  class UserStore {
    var userName: Option<string>
    var userId: Option<string>
    var accessToken: Option<string>
    var refreshToken: Option<string>
    var expiresAt: Option<int>
    var storage: Storage
    const atob: string -> Option<string>
    const parseJson: string -> Option<JwtPayload>
    const toNumber: string -> Option<int>

    function State(): UserState
      reads this
    {
      UserState(userName, userId, accessToken, refreshToken, expiresAt)
    }

    /** The store as first used: its state read from whatever storage holds. */
    constructor(storage: Storage, atob: string -> Option<string>, parseJson: string -> Option<JwtPayload>,
                toNumber: string -> Option<int>)
      ensures State() == InitialState(storage, toNumber) && this.storage == storage
      ensures this.atob == atob && this.parseJson == parseJson && this.toNumber == toNumber
    {
      this.atob := atob;
      this.parseJson := parseJson;
      this.toNumber := toNumber;
      this.storage := storage;
      var initial := InitialState(storage, toNumber);
      userName := initial.userName;
      userId := initial.userId;
      accessToken := initial.accessToken;
      refreshToken := initial.refreshToken;
      expiresAt := initial.expiresAt;
    }

    /**
     * `login`: the token is decoded before anything is assigned, so a
     * malformed token fails with the state and storage untouched.
     */
    method Login(response: TokenPair) returns (r: Result<(), string>)
      modifies this
      ensures var d := DecodeJwt(response.accessToken, atob, parseJson);
        if d.Failure? then r == Failure(InvalidJwt) && State() == old(State()) && storage == old(storage)
        else
          r == Success(())
          && State() == UserState(Some(d.value.userName), Some(IntToDecimal(d.value.userId)),
                                  Some(response.accessToken), Some(response.refreshToken), Some(d.value.exp * 1000))
          && storage == old(storage) + LoginItems(d.value, response)
    {
      var decoded := DecodeJwt(response.accessToken, atob, parseJson);
      if decoded.Failure? {
        return Failure(decoded.error);
      }
      var payload := decoded.value;
      userName := Some(payload.userName);
      userId := Some(IntToDecimal(payload.userId));
      accessToken := Some(response.accessToken);
      refreshToken := Some(response.refreshToken);
      expiresAt := Some(payload.exp * 1000);
      // the five `localStorage.setItem` calls
      storage := storage + LoginItems(payload, response);
      r := Success(());
    }

    /**
     * `updateTokens`: the tokens and the expiry change, the name and id do
     * not; a malformed token fails with nothing changed.
     */
    method UpdateTokens(response: TokenPair) returns (r: Result<(), string>)
      modifies this
      ensures var d := DecodeJwt(response.accessToken, atob, parseJson);
        if d.Failure? then r == Failure(InvalidJwt) && State() == old(State()) && storage == old(storage)
        else
          r == Success(()) && TokensUpdated(old(State()), State(), old(storage), storage, response, d.value)
    {
      var decoded := DecodeJwt(response.accessToken, atob, parseJson);
      if decoded.Failure? {
        return Failure(decoded.error);
      }
      var payload := decoded.value;
      accessToken := Some(response.accessToken);
      refreshToken := Some(response.refreshToken);
      expiresAt := Some(payload.exp * 1000);
      // the three `localStorage.setItem` calls
      storage := storage + RefreshItems(payload, response);
      r := Success(());
    }

    /**
     * `logout` as evidently intended: storage is cleared and the state is
     * the one an empty storage gives, so nobody is signed in afterwards.
     */
    method Logout()
      modifies this
      ensures storage == map[]
      ensures State() == InitialState(map[], toNumber)
      ensures !IsAuthenticated(State())
    {
      storage := map[];
      var cleared := InitialState(storage, toNumber);
      userName := cleared.userName;
      userId := cleared.userId;
      accessToken := cleared.accessToken;
      refreshToken := cleared.refreshToken;
      expiresAt := cleared.expiresAt;
    }
  }

  /** A token the store accepted is never empty: it holds at least the `.` before its payload. */
  lemma AcceptedTokenIsTruthy(token: string, atob: string -> Option<string>, parseJson: string -> Option<JwtPayload>)
    requires DecodeJwt(token, atob, parseJson).Success?
    ensures token != ""
  {
  }
}
