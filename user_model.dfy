/**
 * The user request bodies of the API (apps/api/internal/model/user.go) and
 * how they become a user or an update map.
 */
module UserModel {
  import opened Wrappers
  import opened ApiTypes
  import MockRepository

  /** A user with every field at its zero value. */
  const ZeroUser := User(NilUuid, "", "", "", None, None, None, false)

  datatype StoreUserDTO = StoreUserDTO(email: string, username: string, password: string, googleId: Option<string>)

  /** Absent fields are nil pointers. */
  datatype UpdateUserDTO = UpdateUserDTO(email: Option<string>, username: Option<string>, password: Option<string>)

  /** StoreUserDTO.ToModel: email, username and Google id are copied; the
      password is not (the service hashes it), so the hash starts empty. */
  function StoreToModel(d: StoreUserDTO): (u: User)
    ensures u.email == d.email && u.username == d.username && u.googleId == d.googleId
    ensures u.passwordHash == "" && u.id == NilUuid && !u.isAdmin
    ensures u.emailVerifiedAt.None? && u.lastLoginAt.None?
  {
    ZeroUser.(email := d.email, username := d.username, googleId := d.googleId)
  }

  /** UpdateUserDTO.ToModel: present fields are copied, the raw password
      into PasswordHash. */
  function UpdateToModel(d: UpdateUserDTO): (u: User)
    ensures u.email == d.email.GetOr("") && u.username == d.username.GetOr("")
    ensures u.passwordHash == d.password.GetOr("")
    ensures u.id == NilUuid && u.googleId.None? && !u.isAdmin
  {
    ZeroUser.(email := d.email.GetOr(""), username := d.username.GetOr(""), passwordHash := d.password.GetOr(""))
  }

  /** UpdateUserDTO.ToMap: one entry per present field, holding the text as
      sent; the password goes under password_hash. */
  function ToMap(d: UpdateUserDTO): (m: map<Column, string>)
    ensures EmailColumn in m <==> d.email.Some?
    ensures UsernameColumn in m <==> d.username.Some?
    ensures PasswordHashColumn in m <==> d.password.Some?
    ensures EmailColumn in m ==> m[EmailColumn] == d.email.value
    ensures UsernameColumn in m ==> m[UsernameColumn] == d.username.value
    ensures PasswordHashColumn in m ==> m[PasswordHashColumn] == d.password.value
  {
    var m1: map<Column, string> := if d.email.Some? then map[EmailColumn := d.email.value] else map[];
    var m2 := if d.username.Some? then m1[UsernameColumn := d.username.value] else m1;
    if d.password.Some? then m2[PasswordHashColumn := d.password.value] else m2
  }

  /** ToMap is empty exactly when the DTO carries nothing. */
  lemma ToMapEmptyIff(d: UpdateUserDTO)
    ensures |ToMap(d)| == 0 <==> d == UpdateUserDTO(None, None, None)
  {
    if d != UpdateUserDTO(None, None, None) {
      var m := ToMap(d);
      if d.email.Some? { assert EmailColumn in m; }
      else if d.username.Some? { assert UsernameColumn in m; }
      else { assert PasswordHashColumn in m; }
    }
  }

  /** The two views of an update agree: applying the map to a zero user, as
      the in-memory repository does, gives ToModel's user. */
  lemma ToMapAgreesWithToModel(d: UpdateUserDTO)
    ensures MockRepository.ApplyUpdates(ZeroUser, ToMap(d)) == UpdateToModel(d)
  {
  }
}
