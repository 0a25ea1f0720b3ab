/** The user record (package user, model.go): construction from the
    registration form, the password-hash step, the password check and the
    JSON field set used for the refresh-token snapshot. Go strings are
    modelled as `string`, one char standing for one byte. */
module UserModel {
  import opened Wrappers
  import opened AppErrors

  datatype User = User(
    uuid: string,
    phoneNumber: string,
    password: string,      // the bcrypt hash once the user is persisted
    role: string,
    fullName: string,
    avatarURL: string,
    createdAt: int,        // Unix seconds
    updatedAt: int,        // Unix seconds
    jwtToken: string)

  /** The registration form. Its time fields are decoded but unused. */
  datatype CreateUserDTO = CreateUserDTO(
    fullName: string,
    phoneNumber: string,
    password: string,
    repeatPassword: string,
    createdAt: int,
    updatedAt: int)

  /** `bcrypt.MinCost`, the work factor the source asks for. */
  const MinCost: int := 4

  /** `bcrypt.GenerateFromPassword(password, cost)`, an oracle. */
  type Hasher = (string, int) -> Result<string, GoError>

  /** `bcrypt.CompareHashAndPassword(hash, password)`, an oracle: `None`
      when the password matches the hash. */
  type Comparer = (string, string) -> Option<GoError>

  const PasswordMismatchMessage: string := "password does not match"
  const HashFailurePrefix: string := "failed to hash password due to error: "

  /** `NewUser(dto)`. The two clock readings are passed in: the source
      calls `time.Now()` once for each of the two fields. */
  function NewUser(dto: CreateUserDTO, createdAt: int, updatedAt: int): (u: User)
    ensures u.fullName == dto.fullName && u.phoneNumber == dto.phoneNumber
    ensures u.password == dto.password
    ensures u.uuid == "" && u.role == "" && u.avatarURL == "" && u.jwtToken == ""
    ensures u.createdAt == createdAt && u.updatedAt == updatedAt
  {
    User("", dto.phoneNumber, dto.password, "", dto.fullName, "", createdAt, updatedAt, "")
  }

  /** `generatePasswordHash(password)`: the hash at minimum cost, or the
      empty string and an error that wraps the hasher's error. */
  function GenerateHash(password: string, hash: Hasher): (r: (string, Option<GoError>))
    ensures r.1.None? <==> hash(password, MinCost).Success?
    ensures r.1.None? ==> r.0 == hash(password, MinCost).value
    ensures r.1.Some? ==>
              && r.0 == ""
              && Is(r.1.value, hash(password, MinCost).error)
              && ErrorText(r.1.value) == HashFailurePrefix + ErrorText(hash(password, MinCost).error)
  {
    match hash(password, MinCost)
    case Success(h) => (h, None)
    case Failure(e) => ("", Some(Wrap(HashFailurePrefix, e)))
  }

  /** `u.CheckPassword(password)`: nil exactly when the stored hash accepts
      the candidate; otherwise one fixed error, whatever the cause. */
  function CheckPassword(u: User, password: string, compare: Comparer): (err: Option<GoError>)
    ensures err.None? <==> compare(u.password, password).None?
    ensures err.Some? ==> err.value == Text(PasswordMismatchMessage)
  {
    if compare(u.password, password).Some? then Some(Text(PasswordMismatchMessage)) else None
  }

  /** A `*User`: a heap cell holding a user that methods with a pointer
      receiver update in place. */
  class UserRef {
    var value: User

    constructor (u: User)
      ensures value == u
    {
      value := u;
    }

    /** `u.GeneratePasswordHash()`: on success the password becomes the
        hash of its previous value and nothing else changes; on failure the
        user is left as it was and the error is returned. */
    method GeneratePasswordHash(hash: Hasher) returns (err: Option<GoError>)
      modifies this
      ensures err == GenerateHash(old(value.password), hash).1
      ensures err.None? ==> value == old(value).(password := hash(old(value.password), MinCost).value)
      ensures err.Some? ==> value == old(value)
    {
      var res := GenerateHash(value.password, hash);
      if res.1.Some? {
        return res.1;
      }
      value := value.(password := res.0);
      return None;
    }
  }

  /** The JSON object `json.Marshal` makes of a User: every field but the
      password, which is tagged `json:"-"`. */
  datatype UserJson = UserJson(
    uuid: string,
    phone_number: string,
    role: string,
    full_name: string,
    avatar_url: string,
    created_at: int,
    updated_at: int,
    jwt: string)

  /** The JSON field set of a user. */
  function ToJson(u: User): (j: UserJson)
    ensures j.uuid == u.uuid && j.phone_number == u.phoneNumber && j.role == u.role
    ensures j.full_name == u.fullName && j.avatar_url == u.avatarURL
    ensures j.created_at == u.createdAt && j.updated_at == u.updatedAt && j.jwt == u.jwtToken
  {
    UserJson(u.uuid, u.phoneNumber, u.role, u.fullName, u.avatarURL, u.createdAt, u.updatedAt, u.jwtToken)
  }

  /** `json.Unmarshal` of that object into a zero User: the password stays
      empty. */
  function FromJson(j: UserJson): (u: User)
    ensures u.password == ""
    ensures ToJson(u) == j
  {
    User(j.uuid, j.phone_number, "", j.role, j.full_name, j.avatar_url, j.created_at, j.updated_at, j.jwt)
  }

  /** The byte-level JSON encoder and decoder, as oracles. */
  datatype UserCodec = UserCodec(
    marshal: UserJson -> string,
    unmarshal: string -> Result<UserJson, GoError>)

  /** The assumption made of the codec: decoding what it encoded gives the
      same object back. */
  ghost predicate RoundTrips(c: UserCodec)
  {
    forall j :: c.unmarshal(c.marshal(j)) == Success(j)
  }

  /** `json.Marshal(u)`. */
  function Marshal(c: UserCodec, u: User): (b: string)
    ensures RoundTrips(c) ==> c.unmarshal(b) == Success(ToJson(u))
  {
    c.marshal(ToJson(u))
  }

  /** `json.Unmarshal(b, &u)` into a zero User. */
  function Unmarshal(c: UserCodec, b: string): (r: Result<User, GoError>)
    ensures r.Success? <==> c.unmarshal(b).Success?
    ensures r.Success? ==> r.value.password == "" && ToJson(r.value) == c.unmarshal(b).value
    ensures r.Failure? ==> r.error == c.unmarshal(b).error
  {
    match c.unmarshal(b)
    case Success(j) => Success(FromJson(j))
    case Failure(e) => Failure(e)
  }

  /** The password never reaches the JSON form. */
  lemma MarshalIgnoresPassword(c: UserCodec, u: User, p: string)
    ensures Marshal(c, u.(password := p)) == Marshal(c, u)
  {
  }

  /** Two users have the same JSON form exactly when they agree on every
      field but the password. */
  lemma ToJsonInjective(u: User, v: User)
    ensures ToJson(u) == ToJson(v) <==> u.(password := "") == v.(password := "")
  {
    if ToJson(u) == ToJson(v) {
      assert FromJson(ToJson(u)) == u.(password := "");
      assert FromJson(ToJson(v)) == v.(password := "");
    }
  }

  /** Decoding the snapshot of `u` gives `u` back with an empty password. */
  lemma SnapshotRoundTrip(c: UserCodec, u: User)
    requires RoundTrips(c)
    ensures Unmarshal(c, Marshal(c, u)) == Success(u.(password := ""))
  {
    assert c.unmarshal(c.marshal(ToJson(u))) == Success(ToJson(u));
  }
}
