/** The authentication provider (AuthContext.jsx): the primary and recovery
    PKPs and the OAuth auth methods they were minted with, persisted under
    four localStorage keys, loaded on mount, written after a mint and removed
    on logout. */
module AuthContext {
  import opened Common
  import opened Js

  const PRIMARY_PKP := "primaryPKP"
  const RECOVERY_PKP := "recoveryPKP"
  const PRIMARY_AUTH_METHOD := "primaryAuthMethod"
  const RECOVERY_AUTH_METHOD := "recoveryAuthMethod"

  /** The four keys, in the order the mount-time load reads and parses them. */
  const STORAGE_KEYS: seq<string> := [PRIMARY_PKP, RECOVERY_PKP, PRIMARY_AUTH_METHOD, RECOVERY_AUTH_METHOD]

  /** The browser's `localStorage`: string values under string keys. */
  class LocalStorage {
    var items: map<string, string>

    constructor (initial: map<string, string>)
      ensures items == initial
    {
      items := initial;
    }

    /** `getItem(key)`: the value, or `null` for a missing key. */
    function GetItem(key: string): (v: Option<string>)
      reads this
      ensures v.Some? <==> key in items
      ensures v.Some? ==> v.value == items[key]
    {
      if key in items then Some(items[key]) else None
    }

    method SetItem(key: string, value: string)
      modifies this
      ensures items == old(items)[key := value]
    {
      items := items[key := value];
    }

    method RemoveItem(key: string)
      modifies this
      ensures items == old(items) - {key}
    {
      items := items - {key};
    }
  }

  /** `if (stored)`: a stored value counts only when it is a non-empty string. */
  function Stored(items: map<string, string>, key: string): (s: Option<string>)
    ensures s.Some? <==> key in items && items[key] != ""
  {
    if key in items && items[key] != "" then Some(items[key]) else None
  }

  /** What loading one key yields. */
  datatype KeyLoad = Absent | Parsed(value: JsonValue) | ParseError(message: string)

  function LoadKey(items: map<string, string>, codec: JsonCodec, key: string): KeyLoad
  {
    match Stored(items, key)
    case None => Absent
    case Some(text) =>
      match codec.parse(text)
      case Failure(m) => ParseError(m)
      case Success(v) => Parsed(v)
  }

  /** The load reaches the `i`-th key: no earlier key failed to parse (the
      first SyntaxError abandons the rest of the `try` block). */
  predicate Reaches(items: map<string, string>, codec: JsonCodec, i: nat)
    requires i < |STORAGE_KEYS|
  {
    && (i <= 0 || !LoadKey(items, codec, PRIMARY_PKP).ParseError?)
    && (i <= 1 || !LoadKey(items, codec, RECOVERY_PKP).ParseError?)
    && (i <= 2 || !LoadKey(items, codec, PRIMARY_AUTH_METHOD).ParseError?)
  }

  /** The value the `i`-th field holds after the load: the parsed value of its
      own key when the load reaches it and it parses, else what it held. */
  function LoadedOr(items: map<string, string>, codec: JsonCodec, i: nat, current: JsonValue): JsonValue
    requires i < |STORAGE_KEYS|
  {
    if Reaches(items, codec, i) && LoadKey(items, codec, STORAGE_KEYS[i]).Parsed?
    then LoadKey(items, codec, STORAGE_KEYS[i]).value
    else current
  }

  /** The error of the first key, in load order, whose value fails to parse. */
  function LoadFailure(items: map<string, string>, codec: JsonCodec): (f: Option<string>)
    ensures f.None? <==>
      && !LoadKey(items, codec, PRIMARY_PKP).ParseError? && !LoadKey(items, codec, RECOVERY_PKP).ParseError?
      && !LoadKey(items, codec, PRIMARY_AUTH_METHOD).ParseError? && !LoadKey(items, codec, RECOVERY_AUTH_METHOD).ParseError?
  {
    if LoadKey(items, codec, PRIMARY_PKP).ParseError? then Some(LoadKey(items, codec, PRIMARY_PKP).message)
    else if LoadKey(items, codec, RECOVERY_PKP).ParseError? then Some(LoadKey(items, codec, RECOVERY_PKP).message)
    else if LoadKey(items, codec, PRIMARY_AUTH_METHOD).ParseError? then Some(LoadKey(items, codec, PRIMARY_AUTH_METHOD).message)
    else if LoadKey(items, codec, RECOVERY_AUTH_METHOD).ParseError? then Some(LoadKey(items, codec, RECOVERY_AUTH_METHOD).message)
    else None
  }

  /** `JSON.stringify` never yields the empty string, so what it writes reads
      back as present. */
  ghost predicate StringifiesNonEmpty(codec: JsonCodec)
  {
    forall v :: codec.stringify(v) != ""
  }

  /** The provider's observable state. */
  datatype AuthState = AuthState(
    isAuthenticated: bool,
    isLoading: bool,
    primaryPKP: JsonValue,
    recoveryPKP: JsonValue,
    primaryAuthMethod: JsonValue,
    recoveryAuthMethod: JsonValue,
    error: Option<string>,
    hasAuthenticated: bool)

  /** The state a parse failure leaves: the error is recorded and loading
      ends, abandoning the keys after it. */
  function LoadFailed(s: AuthState, message: string): AuthState
  {
    s.(error := Some(message), isLoading := false)
  }

  /** The last step of the load: 'recoveryAuthMethod', then loading ends. */
  function LoadFromRecoveryAuthMethod(items: map<string, string>, codec: JsonCodec, s: AuthState): AuthState
  {
    match LoadKey(items, codec, RECOVERY_AUTH_METHOD)
    case ParseError(m) => LoadFailed(s, m)
    case Parsed(v) => s.(recoveryAuthMethod := v, isLoading := false)
    case Absent => s.(isLoading := false)
  }

  /** The load from 'primaryAuthMethod' on. */
  function LoadFromPrimaryAuthMethod(items: map<string, string>, codec: JsonCodec, s: AuthState): AuthState
  {
    match LoadKey(items, codec, PRIMARY_AUTH_METHOD)
    case ParseError(m) => LoadFailed(s, m)
    case Parsed(v) => LoadFromRecoveryAuthMethod(items, codec, s.(primaryAuthMethod := v))
    case Absent => LoadFromRecoveryAuthMethod(items, codec, s)
  }

  /** The load from 'recoveryPKP' on. */
  function LoadFromRecoveryPKP(items: map<string, string>, codec: JsonCodec, s: AuthState): AuthState
  {
    match LoadKey(items, codec, RECOVERY_PKP)
    case ParseError(m) => LoadFailed(s, m)
    case Parsed(v) => LoadFromPrimaryAuthMethod(items, codec, s.(recoveryPKP := v))
    case Absent => LoadFromPrimaryAuthMethod(items, codec, s)
  }

  /** The last stage sets only 'recoveryAuthMethod', `error` and `isLoading`. */
  lemma LoadFromRecoveryAuthMethodEffect(items: map<string, string>, codec: JsonCodec, s: AuthState)
    ensures var l3 := LoadKey(items, codec, RECOVERY_AUTH_METHOD);
      && LoadFromRecoveryAuthMethod(items, codec, s).recoveryAuthMethod == (if l3.Parsed? then l3.value else s.recoveryAuthMethod)
      && LoadFromRecoveryAuthMethod(items, codec, s).error == (if l3.ParseError? then Some(l3.message) else s.error)
    ensures LoadFromRecoveryAuthMethod(items, codec, s).(recoveryAuthMethod := s.recoveryAuthMethod, error := s.error, isLoading := s.isLoading) == s
    ensures !LoadFromRecoveryAuthMethod(items, codec, s).isLoading
  {
  }

  /** The stage from 'primaryAuthMethod' on sets only the two auth methods,
      `error` and `isLoading`. */
  lemma LoadFromPrimaryAuthMethodEffect(items: map<string, string>, codec: JsonCodec, s: AuthState)
    ensures var l2 := LoadKey(items, codec, PRIMARY_AUTH_METHOD);
      var l3 := LoadKey(items, codec, RECOVERY_AUTH_METHOD);
      && LoadFromPrimaryAuthMethod(items, codec, s).primaryAuthMethod == (if l2.Parsed? then l2.value else s.primaryAuthMethod)
      && LoadFromPrimaryAuthMethod(items, codec, s).recoveryAuthMethod == (if !l2.ParseError? && l3.Parsed? then l3.value else s.recoveryAuthMethod)
      && LoadFromPrimaryAuthMethod(items, codec, s).error == (if l2.ParseError? then Some(l2.message) else if l3.ParseError? then Some(l3.message) else s.error)
    ensures LoadFromPrimaryAuthMethod(items, codec, s).(primaryAuthMethod := s.primaryAuthMethod, recoveryAuthMethod := s.recoveryAuthMethod,
               error := s.error, isLoading := s.isLoading) == s
    ensures !LoadFromPrimaryAuthMethod(items, codec, s).isLoading
  {
    match LoadKey(items, codec, PRIMARY_AUTH_METHOD)
    case ParseError(_) =>
    case Parsed(v) => LoadFromRecoveryAuthMethodEffect(items, codec, s.(primaryAuthMethod := v));
    case Absent => LoadFromRecoveryAuthMethodEffect(items, codec, s);
  }

  /** The stage from 'recoveryPKP' on leaves the primary PKP and the
      authentication flags alone. */
  lemma LoadFromRecoveryPKPEffect(items: map<string, string>, codec: JsonCodec, s: AuthState)
    ensures var l1 := LoadKey(items, codec, RECOVERY_PKP);
      var l2 := LoadKey(items, codec, PRIMARY_AUTH_METHOD);
      var l3 := LoadKey(items, codec, RECOVERY_AUTH_METHOD);
      && LoadFromRecoveryPKP(items, codec, s).recoveryPKP == (if l1.Parsed? then l1.value else s.recoveryPKP)
      && LoadFromRecoveryPKP(items, codec, s).primaryAuthMethod == (if !l1.ParseError? && l2.Parsed? then l2.value else s.primaryAuthMethod)
      && LoadFromRecoveryPKP(items, codec, s).recoveryAuthMethod ==
        (if !l1.ParseError? && !l2.ParseError? && l3.Parsed? then l3.value else s.recoveryAuthMethod)
      && LoadFromRecoveryPKP(items, codec, s).error ==
        (if l1.ParseError? then Some(l1.message)
         else if l2.ParseError? then Some(l2.message)
         else if l3.ParseError? then Some(l3.message)
         else s.error)
    ensures LoadFromRecoveryPKP(items, codec, s).(recoveryPKP := s.recoveryPKP, primaryAuthMethod := s.primaryAuthMethod,
               recoveryAuthMethod := s.recoveryAuthMethod, error := s.error, isLoading := s.isLoading) == s
    ensures !LoadFromRecoveryPKP(items, codec, s).isLoading
  {
    match LoadKey(items, codec, RECOVERY_PKP)
    case ParseError(_) =>
    case Parsed(v) => LoadFromPrimaryAuthMethodEffect(items, codec, s.(recoveryPKP := v));
    case Absent => LoadFromPrimaryAuthMethodEffect(items, codec, s);
  }

  /** `loadPKPData` over the stored `items`, key by key in load order: a
      stored value that parses sets its field (and, for 'primaryPKP', the
      authentication flags); the first one that fails sets `error` and skips
      the rest; `isLoading` ends false. */
  function AfterLoad(items: map<string, string>, codec: JsonCodec, s: AuthState): AuthState
  {
    match LoadKey(items, codec, PRIMARY_PKP)
    case ParseError(m) => LoadFailed(s, m)
    case Parsed(v) =>
      LoadFromRecoveryPKP(items, codec, s.(primaryPKP := v, isAuthenticated := true, hasAuthenticated := true))
    case Absent => LoadFromRecoveryPKP(items, codec, s)
  }

  /** What the load does to each field: each of the four comes from its own
      key only when the load reaches it and it parses; authentication is
      gained exactly when 'primaryPKP' parses; `error` is the first parse
      failure, if any; loading is over. */
  lemma AfterLoadFields(items: map<string, string>, codec: JsonCodec, s: AuthState)
    ensures AfterLoad(items, codec, s).primaryPKP == LoadedOr(items, codec, 0, s.primaryPKP)
    ensures AfterLoad(items, codec, s).recoveryPKP == LoadedOr(items, codec, 1, s.recoveryPKP)
    ensures AfterLoad(items, codec, s).primaryAuthMethod == LoadedOr(items, codec, 2, s.primaryAuthMethod)
    ensures AfterLoad(items, codec, s).recoveryAuthMethod == LoadedOr(items, codec, 3, s.recoveryAuthMethod)
    ensures AfterLoad(items, codec, s).isAuthenticated == (s.isAuthenticated || LoadKey(items, codec, PRIMARY_PKP).Parsed?)
    ensures AfterLoad(items, codec, s).hasAuthenticated == (s.hasAuthenticated || LoadKey(items, codec, PRIMARY_PKP).Parsed?)
    ensures AfterLoad(items, codec, s).error ==
      if LoadFailure(items, codec).Some? then LoadFailure(items, codec) else s.error
    ensures !AfterLoad(items, codec, s).isLoading
  {
    assert STORAGE_KEYS[0] == PRIMARY_PKP && STORAGE_KEYS[1] == RECOVERY_PKP;
    assert STORAGE_KEYS[2] == PRIMARY_AUTH_METHOD && STORAGE_KEYS[3] == RECOVERY_AUTH_METHOD;
    match LoadKey(items, codec, PRIMARY_PKP)
    case ParseError(m) =>
      assert !Reaches(items, codec, 1) && !Reaches(items, codec, 2) && !Reaches(items, codec, 3);
    case Parsed(v) =>
      var s0 := s.(primaryPKP := v, isAuthenticated := true, hasAuthenticated := true);
      assert AfterLoad(items, codec, s) == LoadFromRecoveryPKP(items, codec, s0);
      LoadFromRecoveryPKPEffect(items, codec, s0);
    case Absent =>
      assert AfterLoad(items, codec, s) == LoadFromRecoveryPKP(items, codec, s);
      LoadFromRecoveryPKPEffect(items, codec, s);
  }

  /** What `GoogleProvider` is constructed with before `signIn()`. */
  datatype SignInRequest = SignInRequest(redirectUri: string, state: Option<string>)

  const RECOVERY_STATE := "recovery=true"

  /** The provider's state; `null` is `JNull` for the PKP and auth-method
      fields and `None` for `error`, which keeps the thrown error's message. */
  class AuthProvider {
    var isAuthenticated: bool
    var isLoading: bool
    var primaryPKP: JsonValue
    var recoveryPKP: JsonValue
    var primaryAuthMethod: JsonValue
    var recoveryAuthMethod: JsonValue
    var error: Option<string>
    /** The `hasAuthenticated` ref. */
    var hasAuthenticated: bool
    const storage: LocalStorage

    constructor (storage: LocalStorage)
      ensures this.storage == storage
      ensures !isAuthenticated && isLoading && error.None? && !hasAuthenticated
      ensures primaryPKP.JNull? && recoveryPKP.JNull? && primaryAuthMethod.JNull? && recoveryAuthMethod.JNull?
    {
      this.storage := storage;
      isAuthenticated := false;
      isLoading := true;
      primaryPKP := JNull;
      recoveryPKP := JNull;
      primaryAuthMethod := JNull;
      recoveryAuthMethod := JNull;
      error := None;
      hasAuthenticated := false;
    }

    function State(): AuthState
      reads this
    {
      AuthState(isAuthenticated, isLoading, primaryPKP, recoveryPKP, primaryAuthMethod, recoveryAuthMethod,
                error, hasAuthenticated)
    }

    /** The mount-time effect `loadPKPData`: each field is set from its own key
        only, only when that key is stored and the load reaches it; the first
        parse failure sets `error` and ends the load; `isLoading` is false
        afterwards either way; storage is only read. */
    method LoadPKPData(codec: JsonCodec)
      modifies this
      ensures State() == AfterLoad(storage.items, codec, old(State()))
    {
      ghost var items := storage.items;
      ghost var target := AfterLoad(items, codec, State());
      var storedPrimaryPKP := storage.GetItem(PRIMARY_PKP);
      var storedRecoveryPKP := storage.GetItem(RECOVERY_PKP);
      var storedPrimaryAuthMethod := storage.GetItem(PRIMARY_AUTH_METHOD);
      var storedRecoveryAuthMethod := storage.GetItem(RECOVERY_AUTH_METHOD);

      if storedPrimaryPKP.Some? && storedPrimaryPKP.value != "" {
        var parsed := codec.parse(storedPrimaryPKP.value);
        assert LoadKey(items, codec, PRIMARY_PKP) ==
          if parsed.Failure? then ParseError(parsed.message) else Parsed(parsed.value);
        if parsed.Failure? {
          error := Some(parsed.message);
          isLoading := false;
          return;
        }
        primaryPKP := parsed.value;
        isAuthenticated := true;
        hasAuthenticated := true;
      }
      assert target == LoadFromRecoveryPKP(items, codec, State());
      if storedRecoveryPKP.Some? && storedRecoveryPKP.value != "" {
        var parsed := codec.parse(storedRecoveryPKP.value);
        assert LoadKey(items, codec, RECOVERY_PKP) ==
          if parsed.Failure? then ParseError(parsed.message) else Parsed(parsed.value);
        if parsed.Failure? {
          error := Some(parsed.message);
          isLoading := false;
          return;
        }
        recoveryPKP := parsed.value;
      }
      assert target == LoadFromPrimaryAuthMethod(items, codec, State());
      if storedPrimaryAuthMethod.Some? && storedPrimaryAuthMethod.value != "" {
        var parsed := codec.parse(storedPrimaryAuthMethod.value);
        assert LoadKey(items, codec, PRIMARY_AUTH_METHOD) ==
          if parsed.Failure? then ParseError(parsed.message) else Parsed(parsed.value);
        if parsed.Failure? {
          error := Some(parsed.message);
          isLoading := false;
          return;
        }
        primaryAuthMethod := parsed.value;
      }
      assert target == LoadFromRecoveryAuthMethod(items, codec, State());
      if storedRecoveryAuthMethod.Some? && storedRecoveryAuthMethod.value != "" {
        var parsed := codec.parse(storedRecoveryAuthMethod.value);
        assert LoadKey(items, codec, RECOVERY_AUTH_METHOD) ==
          if parsed.Failure? then ParseError(parsed.message) else Parsed(parsed.value);
        if parsed.Failure? {
          error := Some(parsed.message);
          isLoading := false;
          return;
        }
        recoveryAuthMethod := parsed.value;
      }
      isLoading := false;
    }

    /** The primary-mint effect `handlePrimaryPKP`, given the primary OAuth
        method and what `mintPrimaryPKP` yields. It runs only for a truthy
        OAuth method while `primaryPKP` is falsy; it records the auth method
        first; a mint sets `primaryPKP` and `isAuthenticated` and writes
        exactly the 'primaryPKP' and 'primaryAuthMethod' keys; a failure sets
        `error` and writes nothing. */
    method HandlePrimaryPKP(primaryOAuthMethod: JsonValue, mint: Result<JsonValue>, codec: JsonCodec)
      modifies this, storage
      ensures !(Truthy(primaryOAuthMethod) && !Truthy(old(primaryPKP))) ==>
        unchanged(this) && unchanged(storage)
      ensures Truthy(primaryOAuthMethod) && !Truthy(old(primaryPKP)) ==>
        primaryAuthMethod == primaryOAuthMethod
        && recoveryPKP == old(recoveryPKP) && recoveryAuthMethod == old(recoveryAuthMethod)
        && isLoading == old(isLoading) && hasAuthenticated == old(hasAuthenticated)
        && (mint.Failure? ==>
              error == Some(mint.message) && storage.items == old(storage.items)
              && primaryPKP == old(primaryPKP) && isAuthenticated == old(isAuthenticated))
        && (mint.Success? ==>
              primaryPKP == mint.value && isAuthenticated && error == old(error)
              && storage.items == old(storage.items)[PRIMARY_PKP := codec.stringify(mint.value)]
                                                    [PRIMARY_AUTH_METHOD := codec.stringify(primaryOAuthMethod)])
    {
      if Truthy(primaryOAuthMethod) && !Truthy(primaryPKP) {
        primaryAuthMethod := primaryOAuthMethod;
        match mint {
          case Failure(m) =>
            error := Some(m);
          case Success(pkp) =>
            primaryPKP := pkp;
            isAuthenticated := true;
            storage.SetItem(PRIMARY_PKP, codec.stringify(pkp));
            storage.SetItem(PRIMARY_AUTH_METHOD, codec.stringify(primaryOAuthMethod));
        }
      }
    }

    /** The recovery-mint effect `handleRecoveryPKP`: as the primary one, over
        the recovery fields and keys, and it never changes `isAuthenticated`. */
    method HandleRecoveryPKP(recoveryOAuthMethod: JsonValue, mint: Result<JsonValue>, codec: JsonCodec)
      modifies this, storage
      ensures isAuthenticated == old(isAuthenticated)
      ensures !(Truthy(recoveryOAuthMethod) && !Truthy(old(recoveryPKP))) ==>
        unchanged(this) && unchanged(storage)
      ensures Truthy(recoveryOAuthMethod) && !Truthy(old(recoveryPKP)) ==>
        recoveryAuthMethod == recoveryOAuthMethod
        && primaryPKP == old(primaryPKP) && primaryAuthMethod == old(primaryAuthMethod)
        && isLoading == old(isLoading) && hasAuthenticated == old(hasAuthenticated)
        && (mint.Failure? ==>
              error == Some(mint.message) && storage.items == old(storage.items)
              && recoveryPKP == old(recoveryPKP))
        && (mint.Success? ==>
              recoveryPKP == mint.value && error == old(error)
              && storage.items == old(storage.items)[RECOVERY_PKP := codec.stringify(mint.value)]
                                                    [RECOVERY_AUTH_METHOD := codec.stringify(recoveryOAuthMethod)])
    {
      if Truthy(recoveryOAuthMethod) && !Truthy(recoveryPKP) {
        recoveryAuthMethod := recoveryOAuthMethod;
        match mint {
          case Failure(m) =>
            error := Some(m);
          case Success(pkp) =>
            recoveryPKP := pkp;
            storage.SetItem(RECOVERY_PKP, codec.stringify(pkp));
            storage.SetItem(RECOVERY_AUTH_METHOD, codec.stringify(recoveryOAuthMethod));
        }
      }
    }

    /** `setupPrimaryPKP` (`recovery` false) and `setupRecoveryPKP` (`recovery`
        true): clear the error and start loading, then hand over to the Google
        sign-in redirect, which returns to the current page; the recovery flow
        marks itself with the OAuth `state` parameter. A failure of
        `getLitNodeClient` or of `signIn` sets the error and stops loading; on
        success the page is left while still loading. The request is `None`
        when no provider was constructed. */
    method Setup(recovery: bool, litClient: Outcome, origin: string, pathname: string, signIn: Outcome)
      returns (request: Option<SignInRequest>)
      modifies this
      ensures litClient.Fail? ==> request.None? && error == Some(litClient.message) && !isLoading
      ensures litClient.Pass? ==> request == Some(SignInRequest(origin + pathname, if recovery then Some(RECOVERY_STATE) else None))
      ensures litClient.Pass? && signIn.Fail? ==> error == Some(signIn.message) && !isLoading
      ensures litClient.Pass? && signIn.Pass? ==> error.None? && isLoading
      ensures isAuthenticated == old(isAuthenticated) && hasAuthenticated == old(hasAuthenticated)
      ensures primaryPKP == old(primaryPKP) && recoveryPKP == old(recoveryPKP)
      ensures primaryAuthMethod == old(primaryAuthMethod) && recoveryAuthMethod == old(recoveryAuthMethod)
    {
      isLoading := true;
      error := None;
      if litClient.Fail? {
        error := Some(litClient.message);
        isLoading := false;
        return None;
      }
      request := Some(SignInRequest(origin + pathname, if recovery then Some(RECOVERY_STATE) else None));
      if signIn.Fail? {
        error := Some(signIn.message);
        isLoading := false;
      }
    }

    /** `logout`: nulls the four fields, clears authentication, removes exactly
        the four keys and navigates to "/" (the returned location);
        `isLoading` and `error` are left as they were. */
    method Logout() returns (href: string)
      modifies this, storage
      ensures href == "/"
      ensures !isAuthenticated && !hasAuthenticated
      ensures primaryPKP.JNull? && recoveryPKP.JNull? && primaryAuthMethod.JNull? && recoveryAuthMethod.JNull?
      ensures isLoading == old(isLoading) && error == old(error)
      ensures storage.items == old(storage.items) - {PRIMARY_PKP, RECOVERY_PKP, PRIMARY_AUTH_METHOD, RECOVERY_AUTH_METHOD}
    {
      isAuthenticated := false;
      primaryPKP := JNull;
      recoveryPKP := JNull;
      primaryAuthMethod := JNull;
      recoveryAuthMethod := JNull;
      hasAuthenticated := false;
      storage.RemoveItem(PRIMARY_PKP);
      storage.RemoveItem(RECOVERY_PKP);
      storage.RemoveItem(PRIMARY_AUTH_METHOD);
      storage.RemoveItem(RECOVERY_AUTH_METHOD);
      href := "/";
    }
  }

  /** A fresh provider mounted over storage holding `items`: authenticated
      exactly when the 'primaryPKP' key is stored and parses; each field comes
      from its own key or stays null; loading is over; an error is reported
      exactly when some stored value the load reaches fails to parse. */
  method LoadOnMount(items: map<string, string>, codec: JsonCodec)
    returns (isAuthenticated: bool, isLoading: bool, error: Option<string>,
             primaryPKP: JsonValue, recoveryPKP: JsonValue,
             primaryAuthMethod: JsonValue, recoveryAuthMethod: JsonValue)
    ensures isAuthenticated <==> LoadKey(items, codec, PRIMARY_PKP).Parsed?
    ensures isAuthenticated ==> Stored(items, PRIMARY_PKP).Some?
    ensures !isLoading
    ensures error == LoadFailure(items, codec)
    ensures primaryPKP == LoadedOr(items, codec, 0, JNull)
    ensures recoveryPKP == LoadedOr(items, codec, 1, JNull)
    ensures primaryAuthMethod == LoadedOr(items, codec, 2, JNull)
    ensures recoveryAuthMethod == LoadedOr(items, codec, 3, JNull)
    ensures Stored(items, RECOVERY_PKP).None? ==> recoveryPKP.JNull?
    ensures Stored(items, PRIMARY_AUTH_METHOD).None? ==> primaryAuthMethod.JNull?
    ensures Stored(items, RECOVERY_AUTH_METHOD).None? ==> recoveryAuthMethod.JNull?
  {
    var storage := new LocalStorage(items);
    var provider := new AuthProvider(storage);
    provider.LoadPKPData(codec);
    AfterLoadFields(items, codec, AuthState(false, true, JNull, JNull, JNull, JNull, None, false));
    isAuthenticated, isLoading, error := provider.isAuthenticated, provider.isLoading, provider.error;
    primaryPKP, recoveryPKP := provider.primaryPKP, provider.recoveryPKP;
    primaryAuthMethod, recoveryAuthMethod := provider.primaryAuthMethod, provider.recoveryAuthMethod;
  }

  /** Persistence round trip: after a primary mint on a freshly mounted
      provider, a reload over the same storage is authenticated with the
      minted PKP, and gets the auth method back unless an unparsable
      'recoveryPKP' value stops the load before it. */
  method MintThenReload(items: map<string, string>, oauth: JsonValue, pkp: JsonValue, codec: JsonCodec)
    returns (written: map<string, string>, reloadedAuthenticated: bool,
             reloadedPKP: JsonValue, reloadedAuthMethod: JsonValue)
    requires RoundTrips(codec) && StringifiesNonEmpty(codec)
    requires Truthy(oauth)
    ensures written.Keys == items.Keys + {PRIMARY_PKP, PRIMARY_AUTH_METHOD}
    ensures forall k :: k in items && k != PRIMARY_PKP && k != PRIMARY_AUTH_METHOD ==> written[k] == items[k]
    ensures reloadedAuthenticated && reloadedPKP == pkp
    ensures !LoadKey(items, codec, RECOVERY_PKP).ParseError? ==> reloadedAuthMethod == oauth
  {
    var storage := new LocalStorage(items);
    var provider := new AuthProvider(storage);
    provider.HandlePrimaryPKP(oauth, Success(pkp), codec);
    written := storage.items;
    assert LoadKey(written, codec, RECOVERY_PKP) == LoadKey(items, codec, RECOVERY_PKP);
    var reloaded := new AuthProvider(storage);
    reloaded.LoadPKPData(codec);
    reloadedAuthenticated, reloadedPKP, reloadedAuthMethod := reloaded.isAuthenticated, reloaded.primaryPKP, reloaded.primaryAuthMethod;
  }

  /** After logout, none of the four keys is left and every other key is
      untouched, so a reload comes up unauthenticated with every field null
      and no error. */
  method LogoutThenReload(items: map<string, string>, codec: JsonCodec)
    returns (remaining: map<string, string>, reloadedAuthenticated: bool, reloadedError: Option<string>,
             reloadedPrimaryPKP: JsonValue, reloadedRecoveryPKP: JsonValue)
    ensures remaining.Keys == items.Keys - {PRIMARY_PKP, RECOVERY_PKP, PRIMARY_AUTH_METHOD, RECOVERY_AUTH_METHOD}
    ensures forall k :: k in remaining ==> remaining[k] == items[k]
    ensures !reloadedAuthenticated && reloadedError.None?
    ensures reloadedPrimaryPKP.JNull? && reloadedRecoveryPKP.JNull?
  {
    var storage := new LocalStorage(items);
    var provider := new AuthProvider(storage);
    provider.LoadPKPData(codec);
    var href := provider.Logout();
    remaining := storage.items;
    var reloaded := new AuthProvider(storage);
    reloaded.LoadPKPData(codec);
    reloadedAuthenticated, reloadedError := reloaded.isAuthenticated, reloaded.error;
    reloadedPrimaryPKP, reloadedRecoveryPKP := reloaded.primaryPKP, reloaded.recoveryPKP;
  }
}
