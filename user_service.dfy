/**
 * The user service of the API (apps/api/internal/service/user.go): the
 * generic resource service plus hashing on create and normalisation of
 * updates.  As in the resource service, the repository's and bcrypt's
 * answers are parameters, and the repository calls made are returned.
 */
module UserService {
  import opened Wrappers
  import opened Text
  import opened ApiTypes
  import opened UserModel
  import opened ResourceServices
  import AuthHandler

  const PasswordTooShortMessage := "Password must be at least 8 characters"
  const PasswordTooShort := BadRequest(PasswordTooShortMessage, [FieldError("password", "too short")])

  /** The generic service the user service embeds, named "user". */
  const Users := ResourceService("user")

  /** Store: the DTO's user, with the bcrypt hash of a non-empty password
      (`hashed` is bcrypt's answer), is stored. */
  method Store(dto: StoreUserDTO, hashed: Option<string>, stored: Outcome<DbError>)
    returns (r: Result<User, ApiError>, calls: seq<RepoCall<User>>)
    ensures dto.password != "" && hashed.None? ==> r == Failure(InternalServerError) && calls == []
    ensures dto.password == "" ==> calls == [StoreCall(StoreToModel(dto))]
    ensures dto.password != "" && hashed.Some? ==>
              calls == [StoreCall(StoreToModel(dto).(passwordHash := hashed.value))]
    ensures r.Success? ==> stored.Pass? && calls == [StoreCall(r.value)]
    ensures (dto.password == "" || hashed.Some?) && stored.Pass? ==> r == Success(calls[0].entity)
    ensures r.Success? ==> r.value.passwordHash == (if dto.password == "" then "" else hashed.value)
    ensures stored.Fail? && calls != [] ==> r == Failure(Handled(stored.error))
  {
    var user := StoreToModel(dto);
    if dto.password != "" {
      if hashed.None? {
        return Failure(InternalServerError), [];
      }
      user := user.(passwordHash := hashed.value);
    }
    calls := [StoreCall(user)];
    if stored.Fail? {
      return Failure(Handled(stored.error)), calls;
    }
    return Success(user), calls;
  }

  /**
   * The update map after the service's clean-up: a trimmed, lower-cased
   * email and a trimmed username, each dropped when it ends up empty; an
   * empty password dropped and any other replaced by its hash.
   */
  function Normalized(m: map<Column, string>, hash: string): (n: map<Column, string>)
    ensures n.Keys <= m.Keys
    ensures EmailColumn in n <==> EmailColumn in m && AuthHandler.NormalizeEmail(m[EmailColumn]) != ""
    ensures EmailColumn in n ==> n[EmailColumn] == AuthHandler.NormalizeEmail(m[EmailColumn])
    ensures UsernameColumn in n <==> UsernameColumn in m && TrimSpace(m[UsernameColumn]) != ""
    ensures UsernameColumn in n ==> n[UsernameColumn] == TrimSpace(m[UsernameColumn])
    ensures PasswordHashColumn in n <==> PasswordHashColumn in m && m[PasswordHashColumn] != ""
    ensures PasswordHashColumn in n ==> n[PasswordHashColumn] == hash
  {
    var e := if EmailColumn in m && AuthHandler.NormalizeEmail(m[EmailColumn]) != ""
             then map[EmailColumn := AuthHandler.NormalizeEmail(m[EmailColumn])] else map[];
    var u := if UsernameColumn in m && TrimSpace(m[UsernameColumn]) != ""
             then e[UsernameColumn := TrimSpace(m[UsernameColumn])] else e;
    if PasswordHashColumn in m && m[PasswordHashColumn] != "" then u[PasswordHashColumn := hash] else u
  }

  /** A non-empty password shorter than MinPasswordLength bytes. */
  predicate TooShort(m: map<Column, string>) {
    PasswordHashColumn in m && m[PasswordHashColumn] != "" && |m[PasswordHashColumn]| < MinPasswordLength
  }

  /** A password that needs hashing. */
  predicate NeedsHash(m: map<Column, string>) {
    PasswordHashColumn in m && m[PasswordHashColumn] != ""
  }

  /**
   * The clean-up part of userService.Update, done in place on the map: the
   * e-mail normalised, the username trimmed, each deleted when it ends up
   * empty; an empty password deleted, a short one refused, any other
   * replaced by bcrypt's answer `hashed` (None when bcrypt fails).
   */
  method CleanUpdates(m: map<Column, string>, hashed: Option<string>) returns (res: Result<map<Column, string>, ApiError>)
    ensures TooShort(m) ==> res == Failure(PasswordTooShort)
    ensures !TooShort(m) && NeedsHash(m) && hashed.None? ==> res == Failure(InternalServerError)
    ensures !TooShort(m) && (NeedsHash(m) ==> hashed.Some?) ==> res == Success(Normalized(m, hashed.GetOr("")))
  {
    var updates := m;
    if EmailColumn in updates {
      var email := AuthHandler.NormalizeEmail(updates[EmailColumn]);
      if email == "" {
        updates := updates - {EmailColumn};
      } else {
        updates := updates[EmailColumn := email];
      }
    }
    if UsernameColumn in updates {
      var username := TrimSpace(updates[UsernameColumn]);
      if username == "" {
        updates := updates - {UsernameColumn};
      } else {
        updates := updates[UsernameColumn := username];
      }
    }
    assert PasswordHashColumn in updates <==> PasswordHashColumn in m;
    assert PasswordHashColumn in m ==> updates[PasswordHashColumn] == m[PasswordHashColumn];
    if PasswordHashColumn in updates {
      var password := updates[PasswordHashColumn];
      if password == "" {
        updates := updates - {PasswordHashColumn};
      } else {
        if |password| < MinPasswordLength {
          return Failure(PasswordTooShort);
        }
        if hashed.None? {
          return Failure(InternalServerError);
        }
        updates := updates[PasswordHashColumn := hashed.value];
      }
    }
    var n := Normalized(m, hashed.GetOr(""));
    forall c: Column ensures (c in updates <==> c in n) && (c in n ==> updates[c] == n[c]) {
      match c
      case EmailColumn =>
      case UsernameColumn =>
      case PasswordHashColumn =>
    }
    assert updates.Keys == n.Keys;
    assert updates == n;
    return Success(updates);
  }

  /**
   * userService.Update.  A nil DTO is only a GetByID through the generic
   * service.  Otherwise the DTO's map is cleaned up, and its refusals come
   * before any repository call.  Then the user is looked up (errors go to
   * HandleError, with no NotFound mapping here); an empty map returns it
   * unchanged, otherwise repo.Update writes the map.
   */
  method Update(id: Uuid, dto: Option<UpdateUserDTO>, hashed: Option<string>,
                found: Result<User, DbError>, written: Result<User, DbError>)
    returns (r: Result<User, ApiError>, calls: seq<RepoCall<User>>)
    ensures dto.None? ==> calls == [GetByIDCall(id, [])]
                          && r == (if found.Success? then Success(found.value) else Failure(Users.MapError(found.error)))
    ensures dto.Some? && TooShort(ToMap(dto.value)) ==> r == Failure(PasswordTooShort) && calls == []
    ensures dto.Some? && !TooShort(ToMap(dto.value)) && NeedsHash(ToMap(dto.value)) && hashed.None? ==>
              r == Failure(InternalServerError) && calls == []
    ensures dto.Some? && !TooShort(ToMap(dto.value)) && (NeedsHash(ToMap(dto.value)) ==> hashed.Some?) ==>
              |calls| >= 1
    ensures dto.Some? && calls != [] ==> calls[0] == GetByIDCall(id, [])
    ensures dto.Some? && |calls| >= 1 && found.Failure? ==> r == Failure(Handled(found.error)) && |calls| == 1
    ensures dto.Some? && |calls| >= 1 && found.Success? ==>
              var n := Normalized(ToMap(dto.value), hashed.GetOr(""));
              (|n| == 0 ==> r == Success(found.value) && |calls| == 1)
              && (|n| > 0 ==> calls == [GetByIDCall(id, []), UpdateCall(found.value, n)]
                              && r == (if written.Success? then Success(written.value) else Failure(Handled(written.error))))
  {
    if dto.None? {
      r, calls := Users.GetByID(id, [], found);
      return;
    }
    var cleaned := CleanUpdates(ToMap(dto.value), hashed);
    if cleaned.Failure? {
      return Failure(cleaned.error), [];
    }
    var updates := cleaned.value;
    calls := [GetByIDCall(id, [])];
    if found.Failure? {
      return Failure(Handled(found.error)), calls;
    }
    if |updates| == 0 {
      return Success(found.value), calls;
    }
    calls := calls + [UpdateCall(found.value, updates)];
    if written.Failure? {
      return Failure(Handled(written.error)), calls;
    }
    return Success(written.value), calls;
  }

  /** A DTO whose fields all clean up to nothing reaches no repo.Update. */
  lemma BlankUpdateWritesNothing(email: string, username: string)
    requires AllSpace(email) && AllSpace(username)
    ensures Normalized(ToMap(UpdateUserDTO(Some(email), Some(username), Some(""))), "") == map[]
  {
    TrimSpaceEmptyIff(email);
    TrimSpaceEmptyIff(username);
  }
}
