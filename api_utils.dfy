/**
 * The API's small parsing and naming helpers (apps/api/internal/lib/utils):
 * query-string integers, the spaced model name, the per-model cache key and
 * the id path parameter.
 */
module ApiUtils {
  import opened Wrappers
  import opened Text
  import opened ApiTypes

  // ------------------------------------------------------------ strconv.Atoi

  const MinInt: int := -0x8000_0000_0000_0000
  const MaxInt: int := 0x7fff_ffff_ffff_ffff

  predicate IsDigit(c: char) {
    '0' <= c <= '9'
  }

  predicate AllDigits(s: string) {
    forall i | 0 <= i < |s| :: IsDigit(s[i])
  }

  /** The value of a run of decimal digits, most significant first. */
  function DigitsValue(s: string): nat
    requires AllDigits(s)
  {
    if s == "" then 0
    else DigitsValue(s[..|s| - 1]) * 10 + (s[|s| - 1] as int - '0' as int)
  }

  predicate Signed(s: string) {
    |s| > 0 && (s[0] == '-' || s[0] == '+')
  }

  /** The text after an optional leading sign. */
  function Unsigned(s: string): string {
    if Signed(s) then s[1..] else s
  }

  /** strconv.Atoi on a 64-bit platform: an optional sign, at least one
      decimal digit, and a value that fits in an int. */
  function Atoi(s: string): (r: Option<int>)
    ensures r.Some? ==> MinInt <= r.value <= MaxInt
  {
    if Unsigned(s) == "" || !AllDigits(Unsigned(s)) then None
    else if s[0] == '-' then
      (if DigitsValue(Unsigned(s)) <= -MinInt then Some(0 - DigitsValue(Unsigned(s)) as int) else None)
    else
      (if DigitsValue(Unsigned(s)) <= MaxInt then Some(DigitsValue(Unsigned(s))) else None)
  }

  /** strconv.Itoa of a natural number. */
  function Itoa(n: nat): (r: string)
    ensures r != "" && AllDigits(r)
  {
    if n < 10 then [('0' as int + n) as char]
    else Itoa(n / 10) + [('0' as int + n % 10) as char]
  }

  lemma {:induction false} DigitsValueItoa(n: nat)
    ensures DigitsValue(Itoa(n)) == n
  {
    if n >= 10 {
      DigitsValueItoa(n / 10);
      var s := Itoa(n);
      assert s[..|s| - 1] == Itoa(n / 10);
    }
  }

  /** Atoi reads back what Itoa writes. */
  lemma AtoiItoa(n: nat)
    requires n <= MaxInt
    ensures Atoi(Itoa(n)) == Some(n)
  {
    DigitsValueItoa(n);
    assert IsDigit(Itoa(n)[0]);
  }

  // ----------------------------------------------------------- ParseQueryInt

  /** The default of ParseQueryInt's optional arguments: the second one, else 0. */
  function DefaultOf(maxAndDefault: seq<int>): int {
    if |maxAndDefault| > 1 then maxAndDefault[1] else 0
  }

  /**
   * utils.ParseQueryInt: the optional trailing arguments are a maximum and a
   * default.  Empty, unparsable and non-positive input gives the default; a
   * value above the maximum gives the maximum.
   */
  function ParseQueryInt(raw: string, maxAndDefault: seq<int>): (r: int)
    ensures raw == "" ==> r == DefaultOf(maxAndDefault)
    ensures Atoi(raw).None? ==> r == DefaultOf(maxAndDefault)
    ensures Atoi(raw).Some? && Atoi(raw).value < 1 ==> r == DefaultOf(maxAndDefault)
    ensures Atoi(raw).Some? && Atoi(raw).value >= 1 && |maxAndDefault| > 0 && Atoi(raw).value > maxAndDefault[0] ==>
              r == maxAndDefault[0]
    ensures Atoi(raw).Some? && Atoi(raw).value >= 1 && (|maxAndDefault| == 0 || Atoi(raw).value <= maxAndDefault[0]) ==>
              r == Atoi(raw).value
  {
    if raw == "" then DefaultOf(maxAndDefault)
    else match Atoi(raw)
      case None => DefaultOf(maxAndDefault)
      case Some(v) =>
        if v < 1 then DefaultOf(maxAndDefault)
        else if |maxAndDefault| > 0 && v > maxAndDefault[0] then maxAndDefault[0]
        else v
  }

  /** The result is the default, the maximum, or a positive number within the maximum. */
  lemma ParseQueryIntRange(raw: string, maxAndDefault: seq<int>)
    ensures var r := ParseQueryInt(raw, maxAndDefault);
            r == DefaultOf(maxAndDefault)
            || (|maxAndDefault| > 0 && r == maxAndDefault[0])
            || (1 <= r <= MaxInt && (|maxAndDefault| > 0 ==> r <= maxAndDefault[0]))
  {
  }

  /** A positive decimal within the maximum is read as itself; one above it
      is clamped to the maximum. */
  lemma ParseQueryIntDecimal(n: nat, maxAndDefault: seq<int>)
    requires 1 <= n <= MaxInt
    ensures |maxAndDefault| > 0 && n > maxAndDefault[0] ==> ParseQueryInt(Itoa(n), maxAndDefault) == maxAndDefault[0]
    ensures !(|maxAndDefault| > 0 && n > maxAndDefault[0]) ==> ParseQueryInt(Itoa(n), maxAndDefault) == n
  {
    AtoiItoa(n);
  }

  /** strconv.Atoi's sign and leading zeros reach the clamp like any other
      numeral: "+5" and "007" read as 5 and 7, "0010" above a maximum of 8
      gives 8. */
  lemma {:induction false} ParseQueryIntNonCanonical()
    ensures ParseQueryInt("+5", [100]) == 5
    ensures ParseQueryInt("007", [100]) == 7
    ensures ParseQueryInt("0010", [8]) == 8
  {
    assert Unsigned("+5") == "5" && AllDigits("5") && DigitsValue("5") == 5;
    assert "007"[..2] == "00" && "00"[..1] == "0" && "0"[..0] == "";
    assert AllDigits("007") && DigitsValue("007") == 7;
    assert "0010"[..3] == "001" && "001"[..2] == "00";
    assert AllDigits("0010") && DigitsValue("0010") == 10;
  }

  /** With no arguments, absent and malformed input read as 0. */
  lemma ParseQueryIntNoDefault(raw: string)
    requires Atoi(raw).None?
    ensures ParseQueryInt(raw, []) == 0
  {
  }

  // ---------------------------------------------------- GetModelSemanticName

  predicate IsUpper(c: char) {
    'A' <= c <= 'Z'
  }

  /** What the builder holds after writing `name`: a space goes in front of
      every upper-case letter except at index 0. */
  function Spaced(name: string): string {
    if name == "" then ""
    else
      var last := name[|name| - 1];
      Spaced(name[..|name| - 1]) + (if |name| > 1 && IsUpper(last) then " " else "") + [last]
  }

  /** utils.GetModelSemanticName over the model's type name. */
  method GetModelSemanticName(name: string) returns (r: string)
    ensures r == Spaced(name)
  {
    r := "";
    var i := 0;
    while i < |name|
      invariant 0 <= i <= |name|
      invariant r == Spaced(name[..i])
    {
      if i > 0 && IsUpper(name[i]) {
        r := r + " ";
      }
      r := r + [name[i]];
      assert name[..i + 1][..i] == name[..i];
      i := i + 1;
    }
    assert name[..i] == name;
  }

  function RemoveSpaces(s: string): string {
    if s == "" then ""
    else RemoveSpaces(s[..|s| - 1]) + (if s[|s| - 1] == ' ' then "" else [s[|s| - 1]])
  }

  lemma {:induction false} RemoveSpacesConcat(a: string, b: string)
    ensures RemoveSpaces(a + b) == RemoveSpaces(a) + RemoveSpaces(b)
    decreases |b|
  {
    if b != "" {
      assert (a + b)[..|a + b| - 1] == a + b[..|b| - 1];
      RemoveSpacesConcat(a, b[..|b| - 1]);
    } else {
      assert a + b == a;
    }
  }

  /** Deleting the spaces of the semantic name gives the name's own non-space
      letters back: only spaces were inserted. */
  lemma {:induction false} SpacedRemoveSpaces(name: string)
    ensures RemoveSpaces(Spaced(name)) == RemoveSpaces(name)
  {
    if name != "" {
      var init, last := name[..|name| - 1], name[|name| - 1];
      var gap: string := if |name| > 1 && IsUpper(last) then " " else "";
      var si := Spaced(init);
      assert Spaced(name) == si + gap + [last];
      assert RemoveSpaces(name) == RemoveSpaces(init) + RemoveSpaces([last]) by {
        RemoveSpacesOne([last]);
      }
      SpacedRemoveSpaces(init);
      RemoveSpacesConcat(si + gap, [last]);
      RemoveSpacesConcat(si, gap);
      RemoveSpacesOne(gap);
      assert RemoveSpaces(si + gap) == RemoveSpaces(init);
    }
  }

  /** One byte is dropped when it is a space and kept otherwise. */
  lemma {:induction false} RemoveSpacesOne(s: string)
    requires |s| <= 1
    ensures RemoveSpaces(s) == if s == "" || s[0] == ' ' then "" else s
  {
    if s != "" {
      assert s[..0] == "";
    }
  }

  function CountInnerUpper(name: string): nat {
    if |name| <= 1 then 0
    else CountInnerUpper(name[..|name| - 1]) + (if IsUpper(name[|name| - 1]) then 1 else 0)
  }

  /** One space per upper-case letter after the first position, no more. */
  lemma {:induction false} SpacedLength(name: string)
    ensures |Spaced(name)| == |name| + CountInnerUpper(name)
  {
    if name != "" {
      SpacedLength(name[..|name| - 1]);
    }
  }

  // --------------------------------------------------------- GetModelCacheKey

  /** utils.GetModelCacheKey: no key for the nil id, otherwise
      "resource:<lower-case model name>:id:<uuid>". */
  function ModelCacheKey(modelName: string, id: Uuid): (r: string)
    ensures id == NilUuid <==> r == ""
    ensures id != NilUuid ==> HasPrefix(r, "resource:") && HasSuffix(r, UuidString(id))
  {
    if id == NilUuid then ""
    else "resource:" + ToLower(modelName) + ":id:" + UuidString(id)
  }

  /** Different ids of one model never share a cache key. */
  lemma ModelCacheKeyInjective(modelName: string, a: Uuid, b: Uuid)
    requires ModelCacheKey(modelName, a) == ModelCacheKey(modelName, b)
    ensures a == b
  {
    if a != NilUuid && b != NilUuid {
      var p := "resource:" + ToLower(modelName) + ":id:";
      ConcatCancel(p, UuidString(a), p, UuidString(b));
      UuidStringInjective(a, b);
    }
  }

  // ---------------------------------------------------------- ParseUUIDParam

  const InvalidIdMessage := "invalid id provided"

  /** utils.ParseUUIDParam; `parsed` is what uuid.Parse made of the text. */
  function ParseUuidParam(raw: string, parsed: Option<Uuid>): (r: Result<Uuid, ApiError>)
    ensures parsed.Some? ==> r == Success(parsed.value)
    ensures parsed.None? ==>
              r.Failure? && r.error.BadRequest? && r.error.fields == [FieldError("id", "must be a valid uuid")]
  {
    match parsed
    case Some(id) => Success(id)
    case None => Failure(BadRequest(InvalidIdMessage, [FieldError("id", "must be a valid uuid")]))
  }
}
