/**
 * The listing options of the API's resource repository
 * (apps/api/internal/repository/resource.go): GetManyOptions and its
 * normalisation, the `preloads` query parameter, and how a request's query
 * string becomes options.
 */
module QueryOptions {
  import opened Text
  import ApiUtils

  const DefaultLimit: int := 20
  const DefaultOrderBy := "created_at"
  const Ascending := "asc"
  const Descending := "desc"

  /** The direction Normalize leaves: the trimmed, lower-cased text when it
      is "asc" or "desc", otherwise "desc". */
  function NormalDirection(d: string): (r: string)
    ensures r == Ascending || r == Descending
    ensures r == Ascending <==> ToLower(TrimSpace(d)) == Ascending
  {
    var t := ToLower(TrimSpace(d));
    if t == "" || (t != Ascending && t != Descending) then Descending else t
  }

  /** Normalising a normalised direction changes nothing. */
  lemma NormalDirectionIdempotent(d: string)
    ensures NormalDirection(NormalDirection(d)) == NormalDirection(d)
  {
    NormalDirectionFixed(NormalDirection(d));
  }

  /** "asc" and "desc" are already normal. */
  lemma NormalDirectionFixed(r: string)
    requires r == Ascending || r == Descending
    ensures NormalDirection(r) == r
  {
    TrimSpaceOfTrimmed(r);
    assert forall i | 0 <= i < |r| :: !('A' <= r[i] <= 'Z');
    ToLowerOfLower(r);
  }

  /** The direction step of Normalize. */
  method NormalizeDirection(d: string) returns (r: string)
    ensures r == NormalDirection(d)
  {
    r := ToLower(TrimSpace(d));
    if r == "" || (r != Ascending && r != Descending) {
      r := Descending;
    }
  }

  /**
   * GetManyOptions.  Filters, joins and where clauses are handed to the
   * database unchanged and are not modelled.
   */
  class GetManyOptions {
    var preloads: seq<string>
    var orderBy: string
    var orderDirection: string
    var limit: int
    var offset: int

    /** What Normalize guarantees. */
    predicate Normalized()
      reads this
    {
      limit > 0 && (orderDirection == Ascending || orderDirection == Descending) && orderBy != ""
    }

    constructor (preloads: seq<string>, orderBy: string, orderDirection: string, limit: int, offset: int)
      ensures this.preloads == preloads && this.orderBy == orderBy
      ensures this.orderDirection == orderDirection && this.limit == limit && this.offset == offset
    {
      this.preloads := preloads;
      this.orderBy := orderBy;
      this.orderDirection := orderDirection;
      this.limit := limit;
      this.offset := offset;
    }

    /**
     * GetManyOptions.Normalize: a non-positive limit becomes 20, the
     * direction is trimmed and lower-cased and anything but asc/desc becomes
     * desc, an empty order column becomes created_at; the offset and the
     * preloads are left alone.  Options already normalised do not change.
     */
    method Normalize()
      modifies this
      ensures limit == (if old(limit) <= 0 then DefaultLimit else old(limit))
      ensures orderDirection == NormalDirection(old(orderDirection))
      ensures orderBy == (if old(orderBy) == "" then DefaultOrderBy else old(orderBy))
      ensures offset == old(offset) && preloads == old(preloads)
      ensures Normalized()
      ensures old(Normalized()) ==> orderDirection == old(orderDirection)
    {
      if limit <= 0 {
        limit := DefaultLimit;
      }
      var d := NormalizeDirection(orderDirection);
      if orderDirection == Ascending || orderDirection == Descending {
        NormalDirectionFixed(orderDirection);
      }
      orderDirection := d;
      if orderBy == "" {
        orderBy := DefaultOrderBy;
      }
    }
  }

  // ----------------------------------------------------------- ParsePreloads

  /** The trimmed, non-empty pieces of `parts`, in order. */
  function Names(parts: seq<string>): (r: seq<string>)
    ensures |r| <= |parts|
  {
    if parts == [] then []
    else
      var rest := Names(parts[..|parts| - 1]);
      var name := TrimSpace(parts[|parts| - 1]);
      if name == "" then rest else rest + [name]
  }

  /** The preload list the query text asks for (a nil list is the empty one). */
  function Preloads(raw: string): seq<string> {
    if raw == "" then [] else Names(Split(raw, ','))
  }

  /** repository.ParsePreloads. */
  method ParsePreloads(raw: string) returns (r: seq<string>)
    ensures r == Preloads(raw)
  {
    if raw == "" {
      return [];
    }
    var parts := Split(raw, ',');
    r := [];
    var i := 0;
    while i < |parts|
      invariant 0 <= i <= |parts|
      invariant r == Names(parts[..i])
    {
      var name := TrimSpace(parts[i]);
      assert parts[..i + 1][..i] == parts[..i];
      if name != "" {
        r := r + [name];
      }
      i := i + 1;
    }
    assert parts[..i] == parts;
  }

  /** A well-formed preload name: non-empty, trimmed and free of commas. */
  predicate PreloadName(s: string) {
    s != "" && TrimSpace(s) == s && ',' !in s
  }

  lemma {:induction false} NamesWellFormed(parts: seq<string>)
    requires forall i | 0 <= i < |parts| :: ',' !in parts[i]
    ensures forall i | 0 <= i < |Names(parts)| :: PreloadName(Names(parts)[i])
  {
    if parts != [] {
      NamesWellFormed(parts[..|parts| - 1]);
      TrimSpaceIdempotent(parts[|parts| - 1]);
      TrimSpaceAvoids(parts[|parts| - 1], ',');
    }
  }

  /** Every parsed name is non-empty, trimmed and comma-free. */
  lemma PreloadsWellFormed(raw: string)
    ensures forall i | 0 <= i < |Preloads(raw)| :: PreloadName(Preloads(raw)[i])
  {
    if raw != "" {
      SplitAvoidsSep(raw, ',');
      NamesWellFormed(Split(raw, ','));
    }
  }

  lemma {:induction false} NamesOfNames(parts: seq<string>)
    requires forall i | 0 <= i < |parts| :: PreloadName(parts[i])
    ensures Names(parts) == parts
  {
    if parts != [] {
      NamesOfNames(parts[..|parts| - 1]);
      assert parts == parts[..|parts| - 1] + [parts[|parts| - 1]];
    }
  }

  /** Writing well-formed names comma-separated and parsing them gives the
      same list back. */
  lemma PreloadsOfJoin(names: seq<string>)
    requires forall i | 0 <= i < |names| :: PreloadName(names[i])
    ensures Preloads(Join(names, ",")) == names
  {
    if names != [] {
      SplitJoin(names, ',');
      NamesOfNames(names);
      assert names[0] != "";
      assert Join(names, ",") != "" by {
        if |names| > 1 {
          assert Join(names, ",") == names[0] + "," + Join(names[1..], ",");
        }
      }
    }
  }

  // ------------------------------------------- NewGetManyOptionsFromRequest

  /**
   * repository.NewGetManyOptionsFromRequest over the raw query values:
   * limit and offset through ParseQueryInt with no maximum and default 0,
   * preloads through ParsePreloads, then Normalize.
   */
  method FromRequest(limitRaw: string, offsetRaw: string, preloadsRaw: string,
                     orderBy: string, orderDirection: string) returns (o: GetManyOptions)
    ensures fresh(o) && o.Normalized()
    ensures o.offset == ApiUtils.ParseQueryInt(offsetRaw, []) && o.offset >= 0
    ensures o.limit == (if ApiUtils.ParseQueryInt(limitRaw, []) == 0 then DefaultLimit
                        else ApiUtils.ParseQueryInt(limitRaw, []))
    ensures o.preloads == Preloads(preloadsRaw)
    ensures o.orderDirection == NormalDirection(orderDirection)
    ensures o.orderBy == (if orderBy == "" then DefaultOrderBy else orderBy)
  {
    var limit := ApiUtils.ParseQueryInt(limitRaw, []);
    var offset := ApiUtils.ParseQueryInt(offsetRaw, []);
    ApiUtils.ParseQueryIntRange(limitRaw, []);
    ApiUtils.ParseQueryIntRange(offsetRaw, []);
    var preloads := ParsePreloads(preloadsRaw);
    o := new GetManyOptions(preloads, orderBy, orderDirection, limit, offset);
    o.Normalize();
  }
}
