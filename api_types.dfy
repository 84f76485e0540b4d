/**
 * Values shared by the API template's repository, service and handler
 * layers: UUIDs and their text form, database errors, the HTTP error
 * responses the services build, and the user record.
 */
module ApiTypes {
  import opened Wrappers

  // ------------------------------------------------------------------ uuid

  newtype Byte = b: int | 0 <= b < 256

  /** A uuid.UUID: sixteen bytes. */
  type Uuid = s: seq<Byte> | |s| == 16 witness [0, 0, 0, 0, 0, 0, 0, 0, 0, 0, 0, 0, 0, 0, 0, 0]

  /** uuid.Nil, the all-zero UUID. */
  const NilUuid: Uuid := [0, 0, 0, 0, 0, 0, 0, 0, 0, 0, 0, 0, 0, 0, 0, 0]

  function HexDigit(n: int): (c: char)
    requires 0 <= n < 16
    ensures ('0' <= c <= '9') || ('a' <= c <= 'f')
  {
    if n < 10 then ('0' as int + n) as char else ('a' as int + n - 10) as char
  }

  function DigitValue(c: char): int {
    if '0' <= c <= '9' then c as int - '0' as int
    else if 'a' <= c <= 'f' then c as int - 'a' as int + 10
    else 0
  }

  predicate IsHexChar(c: char) {
    ('0' <= c <= '9') || ('a' <= c <= 'f')
  }

  /** Lower-case hexadecimal of a byte string, two digits per byte. */
  function Hex(bs: seq<Byte>): (r: string)
    ensures |r| == 2 * |bs|
    ensures forall i | 0 <= i < |r| :: IsHexChar(r[i])
  {
    if bs == [] then ""
    else [HexDigit(bs[0] as int / 16), HexDigit(bs[0] as int % 16)] + Hex(bs[1..])
  }

  /** Reads back what Hex wrote. */
  function Unhex(s: string): seq<Byte>
    decreases |s|
  {
    if |s| < 2 then []
    else
      var v := DigitValue(s[0]) * 16 + DigitValue(s[1]);
      [if 0 <= v < 256 then v as Byte else 0] + Unhex(s[2..])
  }

  lemma {:induction false} UnhexHex(bs: seq<Byte>)
    ensures Unhex(Hex(bs)) == bs
  {
    if bs != [] {
      var h := Hex(bs);
      assert h[2..] == Hex(bs[1..]);
      UnhexHex(bs[1..]);
    }
  }

  lemma HexInjective(a: seq<Byte>, b: seq<Byte>)
    requires Hex(a) == Hex(b)
    ensures a == b
  {
    UnhexHex(a);
    UnhexHex(b);
  }

  /** uuid.UUID.String: the 8-4-4-4-12 dashed lower-case form. */
  function UuidString(u: Uuid): (r: string)
    ensures |r| == 36
  {
    Hex(u[..4]) + "-" + Hex(u[4..6]) + "-" + Hex(u[6..8]) + "-" + Hex(u[8..10]) + "-" + Hex(u[10..])
  }

  lemma ConcatCancel(x: string, y: string, x2: string, y2: string)
    requires |y| == |y2| && x + y == x2 + y2
    ensures x == x2 && y == y2
  {
    assert x == (x + y)[..|x|];
    assert x2 == (x2 + y2)[..|x2|];
    assert y == (x + y)[|x|..];
    assert y2 == (x2 + y2)[|x2|..];
  }

  /** Distinct UUIDs have distinct text forms. */
  lemma UuidStringInjective(u: Uuid, v: Uuid)
    requires UuidString(u) == UuidString(v)
    ensures u == v
  {
    var a0, a1, a2, a3, a4 := Hex(u[..4]), Hex(u[4..6]), Hex(u[6..8]), Hex(u[8..10]), Hex(u[10..]);
    var b0, b1, b2, b3, b4 := Hex(v[..4]), Hex(v[4..6]), Hex(v[6..8]), Hex(v[8..10]), Hex(v[10..]);
    ConcatCancel(a0 + "-" + a1 + "-" + a2 + "-" + a3 + "-", a4, b0 + "-" + b1 + "-" + b2 + "-" + b3 + "-", b4);
    ConcatCancel(a0 + "-" + a1 + "-" + a2 + "-" + a3, "-", b0 + "-" + b1 + "-" + b2 + "-" + b3, "-");
    ConcatCancel(a0 + "-" + a1 + "-" + a2 + "-", a3, b0 + "-" + b1 + "-" + b2 + "-", b3);
    ConcatCancel(a0 + "-" + a1 + "-" + a2, "-", b0 + "-" + b1 + "-" + b2, "-");
    ConcatCancel(a0 + "-" + a1 + "-", a2, b0 + "-" + b1 + "-", b2);
    ConcatCancel(a0 + "-" + a1, "-", b0 + "-" + b1, "-");
    ConcatCancel(a0 + "-", a1, b0 + "-", b1);
    ConcatCancel(a0, "-", b0, "-");
    HexInjective(u[..4], v[..4]);
    HexInjective(u[4..6], v[4..6]);
    HexInjective(u[6..8], v[6..8]);
    HexInjective(u[8..10], v[8..10]);
    HexInjective(u[10..], v[10..]);
    assert u == u[..4] + u[4..6] + u[6..8] + u[8..10] + u[10..];
    assert v == v[..4] + v[4..6] + v[6..8] + v[8..10] + v[10..];
  }

  // ---------------------------------------------------------------- errors

  /** What a GORM call can fail with: gorm.ErrRecordNotFound itself, an error
      that wraps another one, or any other database failure. */
  datatype DbError = RecordNotFound | Wrapped(inner: DbError) | Other(message: string)

  /** errors.Is(err, gorm.ErrRecordNotFound): the sentinel somewhere along
      the wrapping chain. */
  predicate IsRecordNotFound(e: DbError) {
    match e
    case RecordNotFound => true
    case Wrapped(inner) => IsRecordNotFound(inner)
    case Other(_) => false
  }

  datatype FieldError = FieldError(field: string, error: string)

  /**
   * The errors an API call ends with.  `Handled(e)` stands for
   * `sqlerr.HandleError(e)`, whose translation is not part of this model.
   */
  datatype ApiError =
    | BadRequest(message: string, fields: seq<FieldError>)
    | Unauthorized(message: string)
    | Forbidden(message: string)
    | NotFound(message: string)
    | InternalServerError
    | Handled(cause: DbError)

  // ------------------------------------------------------------------ user

  /** Instants are kept as abstract numbers; only their presence matters. */
  type Instant = int

  /** The user record (CreatedAt, UpdatedAt and DeletedAt are kept by GORM
      and are not modelled). */
  datatype User = User(
    id: Uuid,
    email: string,
    username: string,
    passwordHash: string,
    googleId: Option<string>,
    emailVerifiedAt: Option<Instant>,
    lastLoginAt: Option<Instant>,
    isAdmin: bool)

  /** The three columns an update may touch, and their SQL names. */
  datatype Column = EmailColumn | UsernameColumn | PasswordHashColumn {
    function Name(): string {
      match this
      case EmailColumn => "email"
      case UsernameColumn => "username"
      case PasswordHashColumn => "password_hash"
    }
  }

  /** The minimum password length the services demand, in bytes. */
  const MinPasswordLength: nat := 8
}
