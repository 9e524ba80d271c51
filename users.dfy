/*
 * The gateway's user store (api-gateway/users/model.go): user records
 * under user:<id> and an index user:email:<email> -> id, with bcrypt
 * password hashes.
 *
 * bcrypt is modelled by an ideal hash: the salt is a parameter (None
 * when GenerateFromPassword fails) and a hash matches exactly the
 * password it was made from. Redis is a map from key to value with a
 * reachability flag; the pipeline's outcome is a parameter.
 */
module Users {
  import opened Util
  import opened Message

  /** The API's user; password and hash never appear in its JSON. */
  datatype User = User(
    id: string, email: string, password: string, passwordHash: string,
    role: string, createdAt: Time, updatedAt: Time)

  datatype UserError =
    | UserNotFound
    | InvalidCredentials
    | UserAlreadyExists
    | RedisError      // the server could not be reached or refused the command
    | HashError       // GenerateFromPassword failed
    | DecodeError     // the stored value is not a user record

  function UserKey(id: string): string { "user:" + id }
  function EmailKey(email: string): string { "user:email:" + email }

  /** The index key of an email is the record key of the id "email:" + email. */
  lemma EmailKeyIsUserKey(email: string)
    ensures EmailKey(email) == UserKey("email:" + email)
  {
  }

  // -----------------------------------------------------------------------
  // bcrypt
  // -----------------------------------------------------------------------

  const HashTag: string := "$2a$10$"
  const SaltLength: nat := 22

  /** GenerateFromPassword with a given salt. */
  function Hash(password: string, salt: string): (h: string)
    requires |salt| == SaltLength
    ensures |h| == |HashTag| + SaltLength + |password|
  {
    HashTag + salt + password
  }

  /** CompareHashAndPassword succeeds. */
  predicate HashMatches(hash: string, password: string) {
    |hash| >= |HashTag| + SaltLength && hash[..|HashTag|] == HashTag && hash[|HashTag| + SaltLength..] == password
  }

  /** A hash matches the password it was made from and no other; the empty hash matches nothing. */
  lemma HashMatchesExactly(password: string, salt: string, other: string)
    requires |salt| == SaltLength
    ensures HashMatches(Hash(password, salt), other) <==> other == password
    ensures !HashMatches("", other)
  {
    assert Hash(password, salt)[|HashTag| + SaltLength..] == password;
  }

  // -----------------------------------------------------------------------
  // Store
  // -----------------------------------------------------------------------

  /** The userStorage JSON record, the one with the hash. */
  datatype StoredUser = StoredUser(
    id: string, email: string, passwordHash: string, role: string, createdAt: Time, updatedAt: Time)

  /** A Redis string: a user record, or any other text (the email index holds ids). */
  datatype Value = Record(user: StoredUser) | Plain(text: string)

  /** The record Create stores for a user. */
  function Stored(u: User): (s: StoredUser)
    ensures s.id == u.id && s.email == u.email && s.passwordHash == u.passwordHash && s.role == u.role
    ensures s.createdAt == u.createdAt && s.updatedAt == u.updatedAt
  {
    StoredUser(u.id, u.email, u.passwordHash, u.role, u.createdAt, u.updatedAt)
  }

  /** The user GetByID builds from a record: everything but the plaintext password. */
  function Loaded(s: StoredUser): (u: User)
    ensures Stored(u) == s && u.password == ""
  {
    User(s.id, s.email, "", s.passwordHash, s.role, s.createdAt, s.updatedAt)
  }

  /** The user Create hands back: hashed, with the plaintext cleared. */
  function Hashed(u: User, salt: string): (r: User)
    requires |salt| == SaltLength
    ensures r.password == "" && HashMatches(r.passwordHash, u.password)
    ensures r.(password := u.password, passwordHash := u.passwordHash) == u
  {
    HashMatchesExactly(u.password, salt, u.password);
    u.(passwordHash := Hash(u.password, salt), password := "")
  }

  /** Storing the created user and loading it back gives that user. */
  lemma CreatedRoundTrip(u: User, salt: string)
    requires |salt| == SaltLength
    ensures Loaded(Stored(Hashed(u, salt))) == Hashed(u, salt)
  {
  }

  class UserStore {
    var strings: map<string, Value>
    /** Whether Redis answers; every command fails when it does not. */
    const up: bool

    constructor (up: bool)
      ensures this.up == up && strings == map[]
    {
      this.up := up;
      strings := map[];
    }

    /** GetByID: the record under user:<id>. */
    function GetByID(id: string): (r: Result<User, UserError>)
      reads this
      ensures r.Ok? <==> up && UserKey(id) in strings && strings[UserKey(id)].Record?
      ensures r.Ok? ==> Stored(r.value) == strings[UserKey(id)].user && r.value.password == ""
      ensures r == Err(UserNotFound) <==> up && UserKey(id) !in strings
      ensures !up ==> r == Err(RedisError)
    {
      if !up then Err(RedisError)
      else if UserKey(id) !in strings then Err(UserNotFound)
      else match strings[UserKey(id)]
        case Record(s) => Ok(Loaded(s))
        case Plain(_) => Err(DecodeError)
    }

    /** GetByEmail: the id indexed under user:email:<email>, then GetByID. */
    function GetByEmail(email: string): (r: Result<User, UserError>)
      reads this
      ensures !up ==> r == Err(RedisError)
      ensures up && EmailKey(email) !in strings ==> r == Err(UserNotFound)
      ensures up && EmailKey(email) in strings && strings[EmailKey(email)].Plain? ==>
        r == GetByID(strings[EmailKey(email)].text)
    {
      if !up then Err(RedisError)
      else if EmailKey(email) !in strings then Err(UserNotFound)
      else match strings[EmailKey(email)]
        case Plain(id) => GetByID(id)
        case Record(_) => Err(UserNotFound)
    }

    /** Authenticate: the user by email, when the password matches its hash. */
    function Authenticate(email: string, password: string): (r: Result<User, UserError>)
      reads this
      ensures r.Ok? <==> GetByEmail(email).Ok? && HashMatches(GetByEmail(email).value.passwordHash, password)
      ensures r.Ok? ==> r == GetByEmail(email)
      ensures GetByEmail(email).Err? ==> r == GetByEmail(email)
      ensures GetByEmail(email).Ok? && !r.Ok? ==> r == Err(InvalidCredentials)
    {
      match GetByEmail(email)
      case Err(e) => Err(e)
      case Ok(u) => if HashMatches(u.passwordHash, password) then Ok(u) else Err(InvalidCredentials)
    }

    /**
     * Create: refuses an indexed email; otherwise hashes the password and
     * sends both SETs in one pipeline, of which `applied` took effect (a
     * pipeline is not a transaction). `after` is the caller's user as
     * Create leaves it.
     */
    method Create(user: User, salt: Option<string>, applied: nat) returns (err: Option<UserError>, after: User)
      requires salt.Some? ==> |salt.value| == SaltLength
      modifies this
      ensures !up ==> err == Some(RedisError) && after == user && strings == old(strings)
      ensures up && EmailKey(user.email) in old(strings) ==>
        err == Some(UserAlreadyExists) && after == user && strings == old(strings)
      ensures up && EmailKey(user.email) !in old(strings) && salt.None? ==>
        err == Some(HashError) && after == user && strings == old(strings)
      ensures up && EmailKey(user.email) !in old(strings) && salt.Some? ==>
        after == Hashed(user, salt.value)
        && strings == (if applied == 0 then old(strings)
                       else if applied == 1 then old(strings)[UserKey(user.id) := Record(Stored(after))]
                       else old(strings)[UserKey(user.id) := Record(Stored(after))][EmailKey(user.email) := Plain(user.id)])
        && (err == None <==> applied >= 2) && (err != None ==> err == Some(RedisError))
      ensures err == None && !IsIndexKey(user.id) ==>
        Authenticate(user.email, user.password) == Ok(after) && after.password == ""
        && forall q :: q != user.password ==> Authenticate(user.email, q) == Err(InvalidCredentials)
    {
      after := user;
      if !up {
        return Some(RedisError), after;
      }
      if EmailKey(user.email) in strings {
        return Some(UserAlreadyExists), after;
      }
      if salt.None? {
        return Some(HashError), after;
      }
      after := after.(passwordHash := Hash(user.password, salt.value), password := "");
      if applied >= 1 {
        strings := strings[UserKey(user.id) := Record(Stored(after))];
      }
      if applied >= 2 {
        strings := strings[EmailKey(user.email) := Plain(user.id)];
      }
      err := if applied >= 2 then None else Some(RedisError);
      if err == None && !IsIndexKey(user.id) {
        IdKeyIsNotIndex(user.id, user.email);
        HashMatchesForall(user.password, salt.value);
      }
    }
  }

  /** An id whose record key is also an email index key. */
  predicate IsIndexKey(id: string) {
    |id| >= 6 && id[..6] == "email:"
  }

  lemma IdKeyIsNotIndex(id: string, email: string)
    requires !IsIndexKey(id)
    ensures UserKey(id) != EmailKey(email)
  {
    assert EmailKey(email)[5..11] == "email:";
    if |id| >= 6 {
      assert UserKey(id)[5..11] == id[..6];
    }
  }

  lemma HashMatchesForall(password: string, salt: string)
    requires |salt| == SaltLength
    ensures forall q :: HashMatches(Hash(password, salt), q) <==> q == password
  {
    forall q
      ensures HashMatches(Hash(password, salt), q) <==> q == password
    {
      HashMatchesExactly(password, salt, q);
    }
  }
}
