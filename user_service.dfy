/** The user service (service.go): registration, lookup, login, and the
    refresh-token rotation protocol over the token cache. Every foreign
    collaborator is an oracle held in `Env`; the clock reading (`now`, Unix
    seconds) and the result of `uuid.New()` (`refreshId`) are parameters. */
module UserService {
  import opened Wrappers
  import opened AppErrors
  import opened UserModel
  import opened TokenCache

  /** The refresh request body: `{"refresh_token": ...}`. */
  datatype RT = RT(refreshToken: string)

  /** The signed claims: the registered ID, Audience and ExpiresAt (the other
      registered claims stay unset) and the two private claims. */
  datatype UserClaims = UserClaims(id: string, audience: seq<string>, expiresAt: int, uuid: string, role: string)

  /** The JSON object `{"token": ..., "refresh_token": ...}` returned on
      issuance. */
  datatype TokenPair = TokenPair(token: string, refreshToken: string)

  /** The persistent store (the `Storage` interface), as oracles. Like the
      Go methods, each returns its value together with its error. */
  datatype Storage = Storage(
    findOne: string -> (User, Option<GoError>),
    findByPhoneNumber: string -> (User, Option<GoError>),
    create: User -> (string, Option<GoError>))

  /** The service's collaborators. */
  datatype Env = Env(
    storage: Storage,
    hash: Hasher,
    compare: Comparer,
    jwtSecret: string,                                     // the configured HS256 key
    newSigner: string -> Option<GoError>,                  // jwt.NewSignerHS(HS256, key)
    build: (string, UserClaims) -> Result<string, GoError>, // sign with the key, then token.String()
    codec: UserCodec,                                      // json.Marshal/Unmarshal of User
    marshalTokens: TokenPair -> string)                    // json.Marshal of the token pair

  /** Sixty minutes, in seconds. */
  const AccessTokenLifetime: int := 60 * 60
  const Audience: string := "users"

  const PasswordsDifferMessage: string := "password does not match repeated password"
  const FindOnePrefix: string := "faield to find user bu uuid. error "
  const FindByPhonePrefix: string := "failed to find user by phone number. error: "
  const TokenFailurePrefix: string := "failed to generate token. error: "
  const CreateFailurePrefix: string := "failed to create user. error: "

  /** Whether an error is, or wraps, `ErrNotFound`. */
  predicate IsNotFound(e: GoError)
  {
    Is(e, App(ErrNotFound))
  }

  /** The claims minted for `u` at time `now`. */
  function Claims(u: User, now: int): (c: UserClaims)
    ensures c.id == u.uuid && c.uuid == u.uuid && c.role == u.role
    ensures c.audience == [Audience] && c.expiresAt == now + AccessTokenLifetime
  {
    UserClaims(u.uuid, [Audience], now + AccessTokenLifetime, u.uuid, u.role)
  }

  /** `GetOne(ctx, uuid)`: the stored user; a not-found error passes through
      untouched, any other error is wrapped with %w. */
  function GetOne(env: Env, uuid: string): (r: (User, Option<GoError>))
    ensures r.0 == env.storage.findOne(uuid).0
    ensures r.1.None? <==> env.storage.findOne(uuid).1.None?
    ensures r.1.Some? ==> var e := env.storage.findOne(uuid).1.value;
              && (IsNotFound(r.1.value) <==> IsNotFound(e))
              && (IsNotFound(e) ==> r.1.value == e)
              && (!IsNotFound(e) ==>
                    ErrorText(r.1.value) == FindOnePrefix + ErrorText(e) && Unwrap(r.1.value) == Some(e))
              && Is(r.1.value, e)
  {
    var (u, err) := env.storage.findOne(uuid);
    if err.Some? then
      if IsNotFound(err.value) then (u, err)
      else (u, Some(Wrap(FindOnePrefix, err.value)))
    else (u, None)
  }

  /** The user `Create` hands to storage when the passwords agree and
      hashing succeeds. */
  function StoredUser(dto: CreateUserDTO, createdAt: int, updatedAt: int, passwordHash: string): User
  {
    NewUser(dto, createdAt, updatedAt).(password := passwordHash)
  }

  /** `Create(ctx, dto)`: the new user's id, or an error. The two clock
      readings of `NewUser` are parameters. */
  function Create(env: Env, dto: CreateUserDTO, createdAt: int, updatedAt: int): (r: (string, Option<GoError>))
    ensures dto.password != dto.repeatPassword ==>
              r == ("", Some(App(BadRequestError(PasswordsDifferMessage))))
    ensures dto.password == dto.repeatPassword && env.hash(dto.password, MinCost).Failure? ==>
              r == ("", GenerateHash(dto.password, env.hash).1)
    ensures dto.password == dto.repeatPassword && env.hash(dto.password, MinCost).Success? ==>
              var (id, e) := env.storage.create(StoredUser(dto, createdAt, updatedAt, env.hash(dto.password, MinCost).value));
              && r.0 == id
              && (r.1.None? <==> e.None?)
              && (e.Some? ==> (IsNotFound(r.1.value) <==> IsNotFound(e.value)))
              && (e.Some? && IsNotFound(e.value) ==> r.1 == e)
              && (e.Some? && !IsNotFound(e.value) ==>
                    ErrorText(r.1.value) == CreateFailurePrefix + ErrorText(e.value) && Unwrap(r.1.value) == None)
  {
    if dto.password != dto.repeatPassword then
      ("", Some(App(BadRequestError(PasswordsDifferMessage))))
    else
      var user := NewUser(dto, createdAt, updatedAt);
      var (pwd, hashErr) := GenerateHash(user.password, env.hash);
      if hashErr.Some? then ("", hashErr)
      else
        var (id, err) := env.storage.create(user.(password := pwd));
        if err.Some? then
          if IsNotFound(err.value) then (id, err)
          else (id, Some(Describe(CreateFailurePrefix, err.value)))
        else (id, None)
  }

  /** `GenerateAccessToken(u)` as a transformation of the cache contents.
      On success exactly the fresh id is added, mapped to the user's JSON
      snapshot with no expiry, and that id is the returned refresh token;
      on any failure the cache is unchanged. */
  function Issue(env: Env, entries: map<string, Entry>, maxEntryLen: nat, u: User, now: int, refreshId: string)
    : (r: (Result<TokenPair, GoError>, map<string, Entry>))
    ensures r.0.Success? <==>
              && env.newSigner(env.jwtSecret).None?
              && env.build(env.jwtSecret, Claims(u, now)).Success?
              && SetError(maxEntryLen, refreshId, Marshal(env.codec, u)).None?
    ensures r.0.Success? ==>
              && r.0.value == TokenPair(env.build(env.jwtSecret, Claims(u, now)).value, refreshId)
              && r.1 == entries[refreshId := Entry(Marshal(env.codec, u), 0)]
    ensures r.0.Failure? ==> r.1 == entries
    ensures env.newSigner(env.jwtSecret).Some? ==> r.0 == Failure(env.newSigner(env.jwtSecret).value)
    ensures env.newSigner(env.jwtSecret).None? && env.build(env.jwtSecret, Claims(u, now)).Failure? ==>
              r.0 == Failure(env.build(env.jwtSecret, Claims(u, now)).error)
    ensures && env.newSigner(env.jwtSecret).None? && env.build(env.jwtSecret, Claims(u, now)).Success?
            && SetError(maxEntryLen, refreshId, Marshal(env.codec, u)).Some? ==>
              r.0 == Failure(SetError(maxEntryLen, refreshId, Marshal(env.codec, u)).value)
    ensures r.0.Success? && refreshId !in entries ==>
              r.1.Keys == entries.Keys + {refreshId} && |r.1| == |entries| + 1
  {
    match env.newSigner(env.jwtSecret)
    case Some(e) => (Failure(e), entries)
    case None =>
      match env.build(env.jwtSecret, Claims(u, now))
      case Failure(e) => (Failure(e), entries)
      case Success(token) =>
        var userBytes := Marshal(env.codec, u);
        match SetError(maxEntryLen, refreshId, userBytes)
        case Some(e) => (Failure(e), entries)
        case None => (Success(TokenPair(token, refreshId)), entries[refreshId := Entry(userBytes, 0)])
  }

  /** `UpdateRefreshToken(rt)` as a transformation of the cache contents.
      The presented id is gone afterwards whatever happens; an id that is
      not in the cache changes nothing and fails with the cache's
      not-found error. */
  function Rotate(env: Env, entries: map<string, Entry>, maxEntryLen: nat, rt: RT, now: int, refreshId: string)
    : (r: (Result<TokenPair, GoError>, map<string, Entry>))
    ensures rt.refreshToken !in r.1
    ensures rt.refreshToken !in entries ==> r == (Failure(ErrEntryNotFound), entries)
    ensures r.0.Failure? ==> r.1 == entries - {rt.refreshToken}
    ensures rt.refreshToken in entries && Unmarshal(env.codec, entries[rt.refreshToken].value).Failure? ==>
              r.0 == Failure(Unmarshal(env.codec, entries[rt.refreshToken].value).error)
    ensures r.0.Success? ==>
              && rt.refreshToken in entries
              && Unmarshal(env.codec, entries[rt.refreshToken].value).Success?
              && env.build(env.jwtSecret, Claims(Unmarshal(env.codec, entries[rt.refreshToken].value).value, now)).Success?
              && var u := Unmarshal(env.codec, entries[rt.refreshToken].value).value;
                 && r.0.value == TokenPair(env.build(env.jwtSecret, Claims(u, now)).value, refreshId)
                 && r.1 == entries[refreshId := Entry(Marshal(env.codec, u), 0)] - {rt.refreshToken}
  {
    var key := rt.refreshToken;
    if key !in entries then
      assert entries - {key} == entries;
      (Failure(ErrEntryNotFound), entries - {key})
    else
      match Unmarshal(env.codec, entries[key].value)
      case Failure(e) => (Failure(e), entries - {key})
      case Success(u) =>
        var (result, after) := Issue(env, entries, maxEntryLen, u, now, refreshId);
        (result, after - {key})
  }

  /** `GetByPhoneNumberAndPassword(ctx, phone, password)` with its effect on
      the cache: the user (with its `JWTToken` set to the token pair on
      success), the error, and the new cache contents. */
  function Login(env: Env, entries: map<string, Entry>, maxEntryLen: nat, phoneNumber: string, password: string,
                 now: int, refreshId: string)
    : (r: (User, Option<GoError>, map<string, Entry>))
    ensures var (u, e) := env.storage.findByPhoneNumber(phoneNumber);
            && (e.Some? ==>
                  && r.0 == u && r.2 == entries && r.1.Some?
                  && IsNotFound(r.1.value) == IsNotFound(e.value)
                  && Is(r.1.value, e.value))
            && (e.Some? && !IsNotFound(e.value) ==>
                  ErrorText(r.1.value) == FindByPhonePrefix + ErrorText(e.value) && Unwrap(r.1.value) == Some(e.value))
            && (e.Some? && IsNotFound(e.value) ==> r.1 == e)
            && (e.None? && env.compare(u.password, password).Some? ==>
                  r == (u, Some(App(ErrNotFound)), entries))
            && (e.None? && env.compare(u.password, password).None? ==>
                  var (t, after) := Issue(env, entries, maxEntryLen, u, now, refreshId);
                  && r.2 == after
                  && (r.1.None? <==> t.Success?)
                  && (t.Success? ==> r.0 == u.(jwtToken := env.marshalTokens(t.value)))
                  && (t.Failure? ==> r.0 == u && r.1 == Some(Describe(TokenFailurePrefix, t.error))))
  {
    var (u, err) := env.storage.findByPhoneNumber(phoneNumber);
    if err.Some? then
      if IsNotFound(err.value) then (u, err, entries)
      else (u, Some(Wrap(FindByPhonePrefix, err.value)), entries)
    else if env.compare(u.password, password).Some? then
      (u, Some(App(ErrNotFound)), entries)
    else
      var (t, after) := Issue(env, entries, maxEntryLen, u, now, refreshId);
      match t
      case Failure(e) => (u, Some(Describe(TokenFailurePrefix, e)), after)
      case Success(pair) => (u.(jwtToken := env.marshalTokens(pair)), None, after)
  }

  /** A user who does not exist and a user who gives the wrong password
      see the same error, with the same text, and neither changes the
      cache. */
  lemma {:induction false} LoginFailuresLookAlike(env1: Env, env2: Env, entries: map<string, Entry>, maxEntryLen: nat,
                                                  phone1: string, password1: string, phone2: string, password2: string,
                                                  now: int, refreshId: string)
    requires env1.storage.findByPhoneNumber(phone1).1 == Some(App(ErrNotFound))
    requires env2.storage.findByPhoneNumber(phone2).1.None?
    requires env2.compare(env2.storage.findByPhoneNumber(phone2).0.password, password2).Some?
    ensures var r1 := Login(env1, entries, maxEntryLen, phone1, password1, now, refreshId);
            var r2 := Login(env2, entries, maxEntryLen, phone2, password2, now, refreshId);
            && r1.1 == r2.1 == Some(App(ErrNotFound))
            && ErrorText(r1.1.value) == ErrorText(r2.1.value) == "not found"
            && r1.2 == r2.2 == entries
  {
    NotFoundFields();
  }

  /** Mismatched passwords: the outcome depends on no collaborator, so
      nothing is hashed and storage is never reached. */
  lemma CreateMismatchIgnoresCollaborators(env1: Env, env2: Env, dto: CreateUserDTO, c1: int, u1: int, c2: int, u2: int)
    requires dto.password != dto.repeatPassword
    ensures Create(env1, dto, c1, u1) == Create(env2, dto, c2, u2)
    ensures !IsNotFound(Create(env1, dto, c1, u1).1.value)
    ensures Create(env1, dto, c1, u1).1.value.app.code == BadRequestCode
  {
    ErrorKindsDistinct(PasswordsDifferMessage, "");
  }

  /** A failed hash: the outcome does not depend on storage, which is
      therefore not reached, and the id is empty. */
  lemma CreateHashFailureSkipsStorage(env: Env, other: Storage, dto: CreateUserDTO, createdAt: int, updatedAt: int)
    requires dto.password == dto.repeatPassword
    requires env.hash(dto.password, MinCost).Failure?
    ensures Create(env, dto, createdAt, updatedAt) == Create(env.(storage := other), dto, createdAt, updatedAt)
    ensures Create(env, dto, createdAt, updatedAt).0 == ""
  {
  }

  /** A rotated-away id cannot be rotated again: the second attempt fails
      with the cache's not-found error and changes nothing. */
  lemma RotateTwiceFails(env: Env, entries: map<string, Entry>, maxEntryLen: nat, rt: RT,
                         now1: int, refreshId1: string, now2: int, refreshId2: string)
    ensures var after := Rotate(env, entries, maxEntryLen, rt, now1, refreshId1).1;
            Rotate(env, after, maxEntryLen, rt, now2, refreshId2) == (Failure(ErrEntryNotFound), after)
  {
  }

  /** What issuance returns depends neither on the cache contents nor on
      the user's password. */
  lemma IssueResultIgnoresCacheAndPassword(env: Env, entries1: map<string, Entry>, entries2: map<string, Entry>,
                                           maxEntryLen: nat, u: User, p: string, now: int, refreshId: string)
    ensures Issue(env, entries1, maxEntryLen, u.(password := p), now, refreshId).0
            == Issue(env, entries2, maxEntryLen, u, now, refreshId).0
  {
    MarshalIgnoresPassword(env.codec, u, p);
    assert Claims(u.(password := p), now) == Claims(u, now);
  }

  /** Rotating an id whose snapshot decodes to `v` is issuing for `v` and
      then dropping the id. */
  lemma RotateDecoded(env: Env, entries: map<string, Entry>, maxEntryLen: nat, key: string, v: User,
                      now: int, refreshId: string)
    requires key in entries && Unmarshal(env.codec, entries[key].value) == Success(v)
    ensures var issued := Issue(env, entries, maxEntryLen, v, now, refreshId);
            Rotate(env, entries, maxEntryLen, RT(key), now, refreshId) == (issued.0, issued.1 - {key})
  {
  }

  /** Rotating an id that was just stored with u's snapshot is the same as
      issuing for `u` on the cache without that id. */
  lemma {:induction false} RotateFreshSnapshot(env: Env, entries: map<string, Entry>, maxEntryLen: nat, u: User,
                                               refreshId1: string, now: int, refreshId2: string)
    requires RoundTrips(env.codec)
    requires refreshId1 !in entries && refreshId1 != refreshId2
    ensures Rotate(env, entries[refreshId1 := Entry(Marshal(env.codec, u), 0)], maxEntryLen, RT(refreshId1), now, refreshId2)
            == Issue(env, entries, maxEntryLen, u, now, refreshId2)
  {
    var snapshot := Marshal(env.codec, u);
    var after1 := entries[refreshId1 := Entry(snapshot, 0)];
    var u' := u.(password := "");
    var second := Issue(env, after1, maxEntryLen, u', now, refreshId2);
    var direct := Issue(env, entries, maxEntryLen, u, now, refreshId2);
    assert Rotate(env, after1, maxEntryLen, RT(refreshId1), now, refreshId2) == (second.0, second.1 - {refreshId1}) by {
      SnapshotRoundTrip(env.codec, u);
      RotateDecoded(env, after1, maxEntryLen, refreshId1, u', now, refreshId2);
    }
    assert second.0 == direct.0 by {
      IssueResultIgnoresCacheAndPassword(env, after1, entries, maxEntryLen, u, "", now, refreshId2);
    }
    if second.0.Success? {
      MarshalIgnoresPassword(env.codec, u, "");
      assert second.1 == after1[refreshId2 := Entry(snapshot, 0)];
      assert second.1 - {refreshId1} == entries[refreshId2 := Entry(snapshot, 0)];
    } else {
      assert second.1 - {refreshId1} == entries;
    }
  }

  /** Issuing a token pair for `u` and then rotating its refresh id gives
      what a fresh issuance for `u` would: claims with u's UUID and role, a
      token pair carrying the new id, and a cache in which the new id has
      replaced the old one with the same snapshot. A failed second issuance
      still consumes the old id. */
  lemma {:induction false} RotationRoundTrip(env: Env, entries: map<string, Entry>, maxEntryLen: nat, u: User,
                                             now1: int, refreshId1: string, now2: int, refreshId2: string)
    requires RoundTrips(env.codec)
    requires refreshId1 !in entries && refreshId1 != refreshId2
    requires Issue(env, entries, maxEntryLen, u, now1, refreshId1).0.Success?
    ensures var issued := Issue(env, entries, maxEntryLen, u, now1, refreshId1);
            var rotated := Rotate(env, issued.1, maxEntryLen, RT(issued.0.value.refreshToken), now2, refreshId2);
            && (rotated.0.Success? ==>
                  && rotated.0.value.refreshToken == refreshId2
                  && rotated.0.value.token == env.build(env.jwtSecret, Claims(u, now2)).value
                  && rotated.1 == entries[refreshId2 := Entry(Marshal(env.codec, u), 0)])
            && (rotated.0.Failure? ==> rotated.1 == entries)
            && refreshId1 !in rotated.1
  {
    var issued := Issue(env, entries, maxEntryLen, u, now1, refreshId1);
    assert issued.1 == entries[refreshId1 := Entry(Marshal(env.codec, u), 0)];
    RotateFreshSnapshot(env, entries, maxEntryLen, u, refreshId1, now2, refreshId2);
  }

  /** The service object: its collaborators and the shared refresh-token
      cache. */
  class Service {
    const env: Env
    const rtCache: Cache

    constructor (env: Env, rtCache: Cache)
      ensures this.env == env && this.rtCache == rtCache
    {
      this.env := env;
      this.rtCache := rtCache;
    }

    /** `GenerateAccessToken(u)`. */
    method GenerateAccessToken(u: User, now: int, refreshId: string) returns (r: Result<TokenPair, GoError>)
      modifies rtCache
      ensures (r, rtCache.entries) == Issue(env, old(rtCache.entries), rtCache.maxEntryLen, u, now, refreshId)
      ensures r.Success? ==> r.value.refreshToken == refreshId && refreshId in rtCache.entries
      ensures r.Failure? ==> rtCache.entries == old(rtCache.entries)
    {
      var signerErr := env.newSigner(env.jwtSecret);
      if signerErr.Some? {
        return Failure(signerErr.value);
      }
      var claims := Claims(u, now);
      var token := env.build(env.jwtSecret, claims);
      if token.Failure? {
        return Failure(token.error);
      }
      var userBytes := Marshal(env.codec, u);
      var err := rtCache.Set(refreshId, userBytes, 0);
      if err.Some? {
        return Failure(err.value);
      }
      return Success(TokenPair(token.value, refreshId));
    }

    /** `UpdateRefreshToken(rt)`. The source deletes the presented id in a
        deferred call; here that delete runs before each return. */
    method UpdateRefreshToken(rt: RT, now: int, refreshId: string) returns (r: Result<TokenPair, GoError>)
      modifies rtCache
      ensures (r, rtCache.entries) == Rotate(env, old(rtCache.entries), rtCache.maxEntryLen, rt, now, refreshId)
      ensures rt.refreshToken !in rtCache.entries
    {
      var userBytes, err := rtCache.Get(rt.refreshToken);
      if err.Some? {
        var _ := rtCache.Del(rt.refreshToken);
        return Failure(err.value);
      }
      var u := Unmarshal(env.codec, userBytes);
      if u.Failure? {
        var _ := rtCache.Del(rt.refreshToken);
        return Failure(u.error);
      }
      r := GenerateAccessToken(u.value, now, refreshId);
      var _ := rtCache.Del(rt.refreshToken);
    }

    /** `GetByPhoneNumberAndPassword(ctx, phoneNumber, password)`. */
    method GetByPhoneNumberAndPassword(phoneNumber: string, password: string, now: int, refreshId: string)
      returns (u: User, err: Option<GoError>)
      modifies rtCache
      ensures (u, err, rtCache.entries)
              == Login(env, old(rtCache.entries), rtCache.maxEntryLen, phoneNumber, password, now, refreshId)
    {
      var found := env.storage.findByPhoneNumber(phoneNumber);
      u, err := found.0, found.1;
      if err.Some? {
        if IsNotFound(err.value) {
          return;
        }
        return u, Some(Wrap(FindByPhonePrefix, err.value));
      }
      if env.compare(u.password, password).Some? {
        return u, Some(App(ErrNotFound));
      }
      var tokenBytes := GenerateAccessToken(u, now, refreshId);
      if tokenBytes.Failure? {
        return u, Some(Describe(TokenFailurePrefix, tokenBytes.error));
      }
      u := u.(jwtToken := env.marshalTokens(tokenBytes.value));
      return u, None;
    }
  }

  /** A session on a fresh cache: issue a token pair, rotate the refresh id,
      then replay the consumed id. The rotation behaves as a fresh issuance
      for the same user, and the replay always fails. */
  method RefreshScenario(env: Env, maxEntryLen: nat, u: User, now1: int, now2: int, now3: int,
                         id1: string, id2: string, id3: string)
    returns (first: Result<TokenPair, GoError>, second: Result<TokenPair, GoError>, replay: Result<TokenPair, GoError>)
    requires RoundTrips(env.codec)
    requires id1 != id2
    ensures first.Success? ==> first.value.refreshToken == id1
    ensures first.Success? ==> second == Issue(env, map[], maxEntryLen, u, now2, id2).0
    ensures second.Success? ==> second.value.refreshToken == id2 != id1
    ensures replay == Failure(ErrEntryNotFound)
  {
    var cache := new Cache(maxEntryLen);
    var service := new Service(env, cache);
    first := service.GenerateAccessToken(u, now1, id1);
    if first.Success? {
      RotateFreshSnapshot(env, map[], maxEntryLen, u, id1, now2, id2);
    }
    second := service.UpdateRefreshToken(RT(id1), now2, id2);
    replay := service.UpdateRefreshToken(RT(id1), now3, id3);
  }
}
