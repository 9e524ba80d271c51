/*
 * The earlier gateway's user store (gobuild/api-gateway/users/model.go).
 * It stores the API User itself, whose password and hash are left out
 * of its JSON, so a record read back has an empty hash and no password
 * ever matches it.
 */
module GobuildUsers {
  import opened Util
  import opened Message
  import U = Users

  /** The JSON of a User: id, email, role and the two times. */
  datatype PublicUser = PublicUser(id: string, email: string, role: string, createdAt: Time, updatedAt: Time)

  datatype Value = Record(user: PublicUser) | Plain(text: string)

  /** json.Marshal of a User. */
  function Public(u: U.User): (p: PublicUser)
    ensures p.id == u.id && p.email == u.email && p.role == u.role
    ensures p.createdAt == u.createdAt && p.updatedAt == u.updatedAt
  {
    PublicUser(u.id, u.email, u.role, u.createdAt, u.updatedAt)
  }

  /** json.Unmarshal into a User: password and hash stay empty. */
  function Loaded(p: PublicUser): (u: U.User)
    ensures Public(u) == p && u.password == "" && u.passwordHash == ""
  {
    U.User(p.id, p.email, "", "", p.role, p.createdAt, p.updatedAt)
  }

  class UserStore {
    var strings: map<string, Value>
    const up: bool

    constructor (up: bool)
      ensures this.up == up && strings == map[]
    {
      this.up := up;
      strings := map[];
    }

    function GetByID(id: string): (r: Result<U.User, U.UserError>)
      reads this
      ensures r.Ok? <==> up && U.UserKey(id) in strings && strings[U.UserKey(id)].Record?
      ensures r.Ok? ==> Public(r.value) == strings[U.UserKey(id)].user && r.value.passwordHash == ""
      ensures r == Err(U.UserNotFound) <==> up && U.UserKey(id) !in strings
      ensures !up ==> r == Err(U.RedisError)
    {
      if !up then Err(U.RedisError)
      else if U.UserKey(id) !in strings then Err(U.UserNotFound)
      else match strings[U.UserKey(id)]
        case Record(p) => Ok(Loaded(p))
        case Plain(_) => Err(U.DecodeError)
    }

    function GetByEmail(email: string): (r: Result<U.User, U.UserError>)
      reads this
      ensures !up ==> r == Err(U.RedisError)
      ensures up && U.EmailKey(email) !in strings ==> r == Err(U.UserNotFound)
      ensures up && U.EmailKey(email) in strings && strings[U.EmailKey(email)].Plain? ==>
        r == GetByID(strings[U.EmailKey(email)].text)
      ensures r.Ok? ==> r.value.passwordHash == ""
    {
      if !up then Err(U.RedisError)
      else if U.EmailKey(email) !in strings then Err(U.UserNotFound)
      else match strings[U.EmailKey(email)]
        case Plain(id) => GetByID(id)
        case Record(_) => Err(U.UserNotFound)
    }

    /** Authenticate as written: it compares against the hash read back, which is empty. */
    function Authenticate(email: string, password: string): (r: Result<U.User, U.UserError>)
      reads this
      ensures GetByEmail(email).Err? ==> r == GetByEmail(email)
      ensures GetByEmail(email).Ok? ==> r == Err(U.InvalidCredentials)
    {
      match GetByEmail(email)
      case Err(e) => Err(e)
      case Ok(u) =>
        if U.HashMatches(u.passwordHash, password) then Ok(u) else Err(U.InvalidCredentials)
    }

    /**
     * Create: the same steps as the gateway's store, but the record
     * written is the User's JSON, without the hash.
     */
    method Create(user: U.User, salt: Option<string>, applied: nat) returns (err: Option<U.UserError>, after: U.User)
      requires salt.Some? ==> |salt.value| == U.SaltLength
      modifies this
      ensures !up ==> err == Some(U.RedisError) && after == user && strings == old(strings)
      ensures up && U.EmailKey(user.email) in old(strings) ==>
        err == Some(U.UserAlreadyExists) && after == user && strings == old(strings)
      ensures up && U.EmailKey(user.email) !in old(strings) && salt.None? ==>
        err == Some(U.HashError) && after == user && strings == old(strings)
      ensures up && U.EmailKey(user.email) !in old(strings) && salt.Some? ==>
        after == U.Hashed(user, salt.value)
        && strings == (if applied == 0 then old(strings)
                       else if applied == 1 then old(strings)[U.UserKey(user.id) := Record(Public(after))]
                       else old(strings)[U.UserKey(user.id) := Record(Public(after))][U.EmailKey(user.email) := Plain(user.id)])
        && (err == None <==> applied >= 2) && (err != None ==> err == Some(U.RedisError))
      ensures err == None && !U.IsIndexKey(user.id) ==>
        GetByEmail(user.email) == Ok(Loaded(Public(after)))
        && forall q :: Authenticate(user.email, q) == Err(U.InvalidCredentials)
    {
      after := user;
      if !up {
        return Some(U.RedisError), after;
      }
      if U.EmailKey(user.email) in strings {
        return Some(U.UserAlreadyExists), after;
      }
      if salt.None? {
        return Some(U.HashError), after;
      }
      after := after.(passwordHash := U.Hash(user.password, salt.value), password := "");
      if applied >= 1 {
        strings := strings[U.UserKey(user.id) := Record(Public(after))];
      }
      if applied >= 2 {
        strings := strings[U.EmailKey(user.email) := Plain(user.id)];
      }
      err := if applied >= 2 then None else Some(U.RedisError);
      if err == None && !U.IsIndexKey(user.id) {
        U.IdKeyIsNotIndex(user.id, user.email);
      }
    }
  }
}
