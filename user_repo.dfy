/**
  The in-memory user repository (internal/repository/user_repo.go): users
  kept in a map from ID to record. The clock is the `now` argument, the
  UUID of a new user the `freshId` argument; the mutex is not modelled.
 */
module UserRepo {
  import opened Wrappers
  import opened Models

  /** models.User; times are clock readings, the zero time is `ZeroTime`. */
  datatype User = User(
    id: string,
    email: string,
    name: string,
    password: string,
    emailVerified: bool,
    verificationCode: string,
    verificationCodeExpires: Time,
    resetCode: string,
    resetCodeExpires: Time,
    createdAt: Time,
    updatedAt: Time)

  datatype RepoError =
    | NotFound                 // ErrNotFound
    | InvalidVerificationCode  // "invalid verification code"
    | VerificationCodeExpired  // "verification code expired"
    | InvalidResetCode         // "invalid reset code"
    | ResetCodeExpired         // "reset code expired"

  // ---------------------------------------------------------------------------
  // What each write does to one user record
  // ---------------------------------------------------------------------------

  /** The new record Create stores. */
  function NewUser(id: string, email: string, name: string, passwordHash: string, now: Time): (u: User)
    ensures u.id == id && u.email == email && u.name == name && u.password == passwordHash
    ensures !u.emailVerified && u.createdAt == u.updatedAt == now
    ensures u.verificationCode == "" && u.resetCode == ""
  {
    User(id, email, name, passwordHash, false, "", ZeroTime, "", ZeroTime, now, now)
  }

  /** Update on one record: a nil field keeps its value; the record is stamped. */
  function UpdateUser(u: User, email: Option<string>, name: Option<string>, now: Time): (v: User)
    ensures v.email == (if email.Some? then email.value else u.email)
    ensures v.name == (if name.Some? then name.value else u.name)
    ensures v.updatedAt == now
    ensures v.(email := u.email, name := u.name, updatedAt := u.updatedAt) == u
  {
    var withEmail := if email.Some? then u.(email := email.value) else u;
    var withName := if name.Some? then withEmail.(name := name.value) else withEmail;
    withName.(updatedAt := now)
  }

  /** SetVerificationCode on one record. */
  function SetVerification(u: User, code: string, expiresAt: Time, now: Time): User
  {
    u.(verificationCode := code, verificationCodeExpires := expiresAt, updatedAt := now)
  }

  /**
    VerifyEmail on one record: a wrong code is rejected before the expiry is
    looked at; a code past its expiry is rejected; otherwise the email is
    verified and the code cleared.
   */
  function VerifyUser(u: User, code: string, now: Time): (r: Result<User, RepoError>)
    ensures u.verificationCode != code ==> r == Err(InvalidVerificationCode)
    ensures u.verificationCode == code && now > u.verificationCodeExpires ==> r == Err(VerificationCodeExpired)
    ensures r.Ok? <==> u.verificationCode == code && now <= u.verificationCodeExpires
    ensures r.Ok? ==> r.value.emailVerified && r.value.verificationCode == "" && r.value.verificationCodeExpires == ZeroTime
    ensures r.Ok? ==> r.value.password == u.password && r.value.email == u.email && r.value.resetCode == u.resetCode
  {
    if u.verificationCode != code then Err(InvalidVerificationCode)
    else if now > u.verificationCodeExpires then Err(VerificationCodeExpired)
    else Ok(u.(emailVerified := true, verificationCode := "", verificationCodeExpires := ZeroTime, updatedAt := now))
  }

  /** MarkEmailVerified on one record. */
  function MarkVerified(u: User, now: Time): User
  {
    u.(emailVerified := true, updatedAt := now)
  }

  /** SetResetCode on one record. */
  function SetReset(u: User, code: string, expiresAt: Time, now: Time): User
  {
    u.(resetCode := code, resetCodeExpires := expiresAt, updatedAt := now)
  }

  /** ResetPassword on one record: the same order of checks as VerifyUser. */
  function ResetUser(u: User, code: string, newPasswordHash: string, now: Time): (r: Result<User, RepoError>)
    ensures u.resetCode != code ==> r == Err(InvalidResetCode)
    ensures u.resetCode == code && now > u.resetCodeExpires ==> r == Err(ResetCodeExpired)
    ensures r.Ok? <==> u.resetCode == code && now <= u.resetCodeExpires
    ensures r.Ok? ==> r.value.password == newPasswordHash && r.value.resetCode == "" && r.value.resetCodeExpires == ZeroTime
    ensures r.Ok? ==> r.value.email == u.email && r.value.emailVerified == u.emailVerified
  {
    if u.resetCode != code then Err(InvalidResetCode)
    else if now > u.resetCodeExpires then Err(ResetCodeExpired)
    else Ok(u.(password := newPasswordHash, resetCode := "", resetCodeExpires := ZeroTime, updatedAt := now))
  }

  /** A verification code issued with a future expiry verifies the email when used in time. */
  lemma IssuedCodeVerifies(u: User, code: string, expiresAt: Time, issued: Time, now: Time)
    requires now <= expiresAt
    ensures VerifyUser(SetVerification(u, code, expiresAt, issued), code, now).Ok?
    ensures VerifyUser(SetVerification(u, code, expiresAt, issued), code, now).value.emailVerified
  {
  }

  /** A verification code works once: after use, the same non-empty code is rejected as invalid. */
  lemma VerificationCodeSingleUse(u: User, code: string, now: Time, later: Time)
    requires code != "" && VerifyUser(u, code, now).Ok?
    ensures VerifyUser(VerifyUser(u, code, now).value, code, later) == Err(InvalidVerificationCode)
  {
  }

  /** A reset code, issued and used in time, sets the new password; after use it is rejected. */
  lemma IssuedResetCodeWorksOnce(u: User, code: string, expiresAt: Time, issued: Time, now: Time,
      hash: string, later: Time, other: string)
    requires now <= expiresAt && code != ""
    ensures ResetUser(SetReset(u, code, expiresAt, issued), code, hash, now).Ok?
    ensures var v := ResetUser(SetReset(u, code, expiresAt, issued), code, hash, now).value;
      && v.password == hash
      && ResetUser(v, code, other, later) == Err(InvalidResetCode)
  {
  }

  /** Setting a new code replaces the old one: the old code no longer verifies. */
  lemma ReissuedCodeRevokesOld(u: User, oldCode: string, newCode: string, expiresAt: Time, issued: Time, now: Time)
    requires oldCode != newCode
    ensures VerifyUser(SetVerification(u, newCode, expiresAt, issued), oldCode, now) == Err(InvalidVerificationCode)
  {
  }

  // ---------------------------------------------------------------------------
  // The repository
  // ---------------------------------------------------------------------------

  /** Some stored user has this email. */
  predicate HasEmail(store: map<string, User>, email: string)
  {
    exists id :: id in store && store[id].email == email
  }

  class UserMemoryRepo {
    var store: map<string, User>

    /** Every user is stored under its own ID. */
    ghost predicate Valid()
      reads this
    {
      forall id :: id in store ==> store[id].id == id
    }

    /** NewUserMemoryRepo */
    constructor ()
      ensures store == map[] && Valid()
    {
      store := map[];
    }

    /** List: every stored user once, in map order. */
    method List() returns (out: seq<User>)
      requires Valid()
      ensures |out| == |store|
      ensures forall u :: u in out <==> u in store.Values
      ensures forall i, j :: 0 <= i < j < |out| ==> out[i] != out[j]
    {
      out := [];
      var remaining := store.Keys;
      while remaining != {}
        invariant remaining <= store.Keys
        invariant |out| + |remaining| == |store.Keys|
        invariant forall u :: u in out <==> exists id :: id in store.Keys - remaining && store[id] == u
        invariant forall k :: 0 <= k < |out| ==> out[k].id !in remaining
        invariant forall i, j :: 0 <= i < j < |out| ==> out[i] != out[j]
        decreases |remaining|
      {
        var id :| id in remaining;
        out := out + [store[id]];
        remaining := remaining - {id};
      }
      assert |store.Keys| == |store|;
    }

    /** Get: the user stored under `id`, or NotFound. */
    function Get(id: string): (r: Result<User, RepoError>)
      reads this
      ensures r.Ok? <==> id in store
      ensures r.Ok? ==> r.value == store[id]
      ensures r.Err? ==> r.error == NotFound
    {
      if id in store then Ok(store[id]) else Err(NotFound)
    }

    /** The map scan of the email-keyed methods: the ID of some user with this email. */
    method FindByEmail(email: string) returns (found: Option<string>)
      ensures found.None? <==> !HasEmail(store, email)
      ensures found.Some? ==> found.value in store && store[found.value].email == email
    {
      var remaining := store.Keys;
      while remaining != {}
        invariant remaining <= store.Keys
        invariant forall id :: id in store.Keys - remaining ==> store[id].email != email
        decreases |remaining|
      {
        var id :| id in remaining;
        if store[id].email == email {
          return Some(id);
        }
        remaining := remaining - {id};
      }
      return None;
    }

    /** GetByEmail: a stored user with this email, or NotFound when there is none. */
    method GetByEmail(email: string) returns (r: Result<User, RepoError>)
      ensures r.Err? <==> !HasEmail(store, email)
      ensures r.Err? ==> r.error == NotFound
      ensures r.Ok? ==> r.value in store.Values && r.value.email == email
    {
      var found := FindByEmail(email);
      if found.None? {
        return Err(NotFound);
      }
      return Ok(store[found.value]);
    }

    /** Create: store a new unverified user under the fresh ID; every other entry stays. */
    method Create(freshId: string, email: string, name: string, passwordHash: string, now: Time)
      returns (u: User)
      requires Valid()
      modifies this
      ensures Valid()
      ensures u == NewUser(freshId, email, name, passwordHash, now)
      ensures store == old(store)[freshId := u]
    {
      u := NewUser(freshId, email, name, passwordHash, now);
      store := store[u.id := u];
    }

    /** Update: NotFound for a missing ID, otherwise only email, name and the stamp can change. */
    method Update(id: string, email: Option<string>, name: Option<string>, now: Time)
      returns (r: Result<User, RepoError>)
      requires Valid()
      modifies this
      ensures Valid()
      ensures id !in old(store) ==> r == Err(NotFound) && store == old(store)
      ensures id in old(store) ==>
        && r == Ok(UpdateUser(old(store[id]), email, name, now))
        && store == old(store)[id := r.value]
    {
      if id !in store {
        return Err(NotFound);
      }
      var u := store[id];
      if email.Some? {
        u := u.(email := email.value);
      }
      if name.Some? {
        u := u.(name := name.value);
      }
      u := u.(updatedAt := now);
      store := store[id := u];
      r := Ok(u);
    }

    /** Delete: NotFound for a missing ID, otherwise exactly that entry goes. */
    method Delete(id: string) returns (err: Option<RepoError>)
      requires Valid()
      modifies this
      ensures Valid()
      ensures id !in old(store) ==> err == Some(NotFound) && store == old(store)
      ensures id in old(store) ==> err == None && store == old(store) - {id}
    {
      if id !in store {
        return Some(NotFound);
      }
      store := store - {id};
      return None;
    }

    /** SetVerificationCode: on some user with this email, or NotFound. */
    method SetVerificationCode(email: string, code: string, expiresAt: Time, now: Time)
      returns (err: Option<RepoError>)
      requires Valid()
      modifies this
      ensures Valid()
      ensures !HasEmail(old(store), email) ==> err == Some(NotFound) && store == old(store)
      ensures HasEmail(old(store), email) ==> err == None
      ensures HasEmail(old(store), email) ==>
        exists id :: id in old(store) && old(store[id]).email == email && store == old(store)[id := SetVerification(old(store[id]), code, expiresAt, now)]
    {
      var found := FindByEmail(email);
      if found.None? {
        return Some(NotFound);
      }
      var id := found.value;
      store := store[id := SetVerification(store[id], code, expiresAt, now)];
      return None;
    }

    /** VerifyEmail: on some user with this email, the checks of VerifyUser; nothing changes on an error. */
    method VerifyEmail(email: string, code: string, now: Time) returns (err: Option<RepoError>)
      requires Valid()
      modifies this
      ensures Valid()
      ensures !HasEmail(old(store), email) ==> err == Some(NotFound) && store == old(store)
      ensures HasEmail(old(store), email) ==>
        exists id :: id in old(store) && old(store[id]).email == email
          && var r := VerifyUser(old(store[id]), code, now);
          && (r.Err? ==> err == Some(r.error) && store == old(store))
          && (r.Ok? ==> err == None && store == old(store)[id := r.value])
    {
      var found := FindByEmail(email);
      if found.None? {
        return Some(NotFound);
      }
      var id := found.value;
      var u := store[id];
      if u.verificationCode != code {
        return Some(InvalidVerificationCode);
      }
      if now > u.verificationCodeExpires {
        return Some(VerificationCodeExpired);
      }
      u := u.(emailVerified := true, verificationCode := "", verificationCodeExpires := ZeroTime, updatedAt := now);
      store := store[id := u];
      return None;
    }

    /** MarkEmailVerified: on some user with this email, or NotFound. */
    method MarkEmailVerified(email: string, now: Time) returns (err: Option<RepoError>)
      requires Valid()
      modifies this
      ensures Valid()
      ensures !HasEmail(old(store), email) ==> err == Some(NotFound) && store == old(store)
      ensures HasEmail(old(store), email) ==> err == None
      ensures HasEmail(old(store), email) ==>
        exists id :: id in old(store) && old(store[id]).email == email && store == old(store)[id := MarkVerified(old(store[id]), now)]
    {
      var found := FindByEmail(email);
      if found.None? {
        return Some(NotFound);
      }
      var id := found.value;
      store := store[id := MarkVerified(store[id], now)];
      return None;
    }

    /** SetResetCode: on some user with this email, or NotFound. */
    method SetResetCode(email: string, code: string, expiresAt: Time, now: Time)
      returns (err: Option<RepoError>)
      requires Valid()
      modifies this
      ensures Valid()
      ensures !HasEmail(old(store), email) ==> err == Some(NotFound) && store == old(store)
      ensures HasEmail(old(store), email) ==> err == None
      ensures HasEmail(old(store), email) ==>
        exists id :: id in old(store) && old(store[id]).email == email && store == old(store)[id := SetReset(old(store[id]), code, expiresAt, now)]
    {
      var found := FindByEmail(email);
      if found.None? {
        return Some(NotFound);
      }
      var id := found.value;
      store := store[id := SetReset(store[id], code, expiresAt, now)];
      return None;
    }

    /** ResetPassword: on some user with this email, the checks of ResetUser; nothing changes on an error. */
    method ResetPassword(email: string, code: string, newPasswordHash: string, now: Time)
      returns (err: Option<RepoError>)
      requires Valid()
      modifies this
      ensures Valid()
      ensures !HasEmail(old(store), email) ==> err == Some(NotFound) && store == old(store)
      ensures HasEmail(old(store), email) ==>
        exists id :: id in old(store) && old(store[id]).email == email
          && var r := ResetUser(old(store[id]), code, newPasswordHash, now);
          && (r.Err? ==> err == Some(r.error) && store == old(store))
          && (r.Ok? ==> err == None && store == old(store)[id := r.value])
    {
      var found := FindByEmail(email);
      if found.None? {
        return Some(NotFound);
      }
      var id := found.value;
      var u := store[id];
      if u.resetCode != code {
        return Some(InvalidResetCode);
      }
      if now > u.resetCodeExpires {
        return Some(ResetCodeExpired);
      }
      u := u.(password := newPasswordHash, resetCode := "", resetCodeExpires := ZeroTime, updatedAt := now);
      store := store[id := u];
      return None;
    }
  }
}
