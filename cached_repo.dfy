/**
 * The cache-aside resource repository of the API
 * (apps/api/internal/repository/resource.go): reads try the cache first and
 * fill it from the database, writes go to the database and then drop the
 * cached copy.
 *
 * The database is not modelled: each method receives the answer its GORM
 * call gives (the row, or the error).  The cache is a map from entity id to
 * what is stored under that id's key; JSON encoding is taken to round-trip,
 * and an entry that does not decode is `Undecodable`.
 */
module CachedRepository {
  import opened Wrappers
  import opened ApiTypes

  // ----------------------------------------------------------- entity ids

  /** What reflection finds under the name `ID`. */
  datatype IdField = UuidField(id: Uuid) | OtherTypeField

  /** What reflection sees of an entity value. */
  datatype EntityShape = NilEntity | NotStruct | Struct(idField: Option<IdField>)

  /** extractEntityID: the entity's UUID-typed, non-nil `ID` field, if any. */
  function ExtractEntityID(shape: EntityShape): (r: Option<Uuid>)
    ensures r.Some? <==> shape.Struct? && shape.idField.Some? && shape.idField.value.UuidField?
                         && shape.idField.value.id != NilUuid
    ensures r.Some? ==> r.value == shape.idField.value.id && r.value != NilUuid
  {
    match shape
    case Struct(Some(UuidField(id))) => if id == NilUuid then None else Some(id)
    case _ => None
  }

  // ----------------------------------------------------------------- cache

  /** What a cache key holds: an entity's encoding, or bytes that do not decode. */
  datatype Entry<T> = Encoded(value: T) | Undecodable

  /** A lookup that the cache answers: a decodable entry under the id. */
  predicate Hit<T>(cache: map<Uuid, Entry<T>>, id: Uuid) {
    id in cache && cache[id].Encoded?
  }

  /** The cache after a missed lookup: an undecodable entry is deleted. */
  function AfterMiss<T>(cache: map<Uuid, Entry<T>>, id: Uuid): (c: map<Uuid, Entry<T>>)
    ensures id !in c && forall u | u != id :: (u in c <==> u in cache) && (u in c ==> c[u] == cache[u])
  {
    cache - {id}
  }

  /** The cache after storing `value` under `id`. */
  function Filled<T>(cache: map<Uuid, Entry<T>>, id: Uuid, value: T): (c: map<Uuid, Entry<T>>)
    ensures Hit(c, id) && c[id].value == value
    ensures forall u | u != id :: (u in c <==> u in cache) && (u in c ==> c[u] == cache[u])
  {
    cache[id := Encoded(value)]
  }

  class ResourceRepository<T> {
    /** A cache client is attached (NewResourceRepository drops it for a
        non-positive TTL). */
    const client: bool
    const ttl: int
    /** How reflection sees an entity. */
    const shapeOf: T -> EntityShape
    /** The shared cache, by entity id. */
    var cache: map<Uuid, Entry<T>>

    /** cacheEnabled: a client and a positive TTL. */
    predicate CacheEnabled() {
      client && ttl > 0
    }

    /** NewResourceRepository: a non-positive TTL switches the cache off. */
    constructor (hasClient: bool, ttl: int, shapeOf: T -> EntityShape, cache: map<Uuid, Entry<T>>)
      ensures CacheEnabled() <==> hasClient && ttl > 0
      ensures ttl <= 0 ==> !this.client
      ensures this.ttl == ttl && this.shapeOf == shapeOf && this.cache == cache
    {
      this.client := hasClient && ttl > 0;
      this.ttl := ttl;
      this.shapeOf := shapeOf;
      this.cache := cache;
    }

    // ------------------------------------------------------ cache helpers

    /** getCachedByID: a decodable entry answers; an undecodable one is
        deleted and counts as a miss. */
    method GetCachedById(id: Uuid) returns (found: Option<T>)
      modifies this
      ensures !CacheEnabled() ==> found.None? && cache == old(cache)
      ensures CacheEnabled() && Hit(old(cache), id) ==>
                found == Some(old(cache)[id].value) && cache == old(cache)
      ensures CacheEnabled() && !Hit(old(cache), id) ==> found.None? && cache == AfterMiss(old(cache), id)
    {
      if !CacheEnabled() {
        return None;
      }
      if id !in cache {
        assert cache == AfterMiss(cache, id);
        return None;
      }
      match cache[id]
      case Encoded(v) =>
        found := Some(v);
      case Undecodable =>
        cache := cache - {id};
        found := None;
    }

    /** setCache: only with the cache on, an entity present and no preloads. */
    method SetCache(id: Uuid, entity: Option<T>, preloads: seq<string>)
      modifies this
      ensures CacheEnabled() && entity.Some? && |preloads| == 0 ==>
                cache == Filled(old(cache), id, entity.value)
      ensures !(CacheEnabled() && entity.Some? && |preloads| == 0) ==> cache == old(cache)
    {
      if !CacheEnabled() || entity.None? || |preloads| != 0 {
        return;
      }
      cache := cache[id := Encoded(entity.value)];
    }

    /** setCacheFromEntity: cache the entity under its own id, if it has one. */
    method SetCacheFromEntity(entity: T)
      modifies this
      ensures CacheEnabled() && ExtractEntityID(shapeOf(entity)).Some? ==>
                cache == Filled(old(cache), ExtractEntityID(shapeOf(entity)).value, entity)
      ensures !(CacheEnabled() && ExtractEntityID(shapeOf(entity)).Some?) ==> cache == old(cache)
    {
      if !CacheEnabled() || shapeOf(entity).NilEntity? {
        return;
      }
      var id := ExtractEntityID(shapeOf(entity));
      if id.None? {
        return;
      }
      SetCache(id.value, Some(entity), []);
    }

    /** evictCache. */
    method EvictCache(id: Uuid)
      modifies this
      ensures CacheEnabled() ==> cache == old(cache) - {id}
      ensures !CacheEnabled() ==> cache == old(cache)
    {
      if !CacheEnabled() {
        return;
      }
      cache := cache - {id};
    }

    /** evictCacheFromEntity: evict the entity's own id, if it has one. */
    method EvictCacheFromEntity(entity: T)
      modifies this
      ensures CacheEnabled() && ExtractEntityID(shapeOf(entity)).Some? ==>
                cache == old(cache) - {ExtractEntityID(shapeOf(entity)).value}
      ensures !(CacheEnabled() && ExtractEntityID(shapeOf(entity)).Some?) ==> cache == old(cache)
    {
      if !CacheEnabled() {
        return;
      }
      var id := ExtractEntityID(shapeOf(entity));
      if id.None? {
        return;
      }
      EvictCache(id.value);
    }

    // ------------------------------------------------------ repository API

    /**
     * Store.  `created` is the row as Create left it, or Create's error.  A
     * stored entity is cached under its own id; one without an id, or a
     * failed insert, leaves the cache alone.
     */
    method Store(created: Result<T, DbError>) returns (r: Outcome<DbError>)
      modifies this
      ensures r == (if created.Failure? then Fail(created.error) else Pass)
      ensures created.Success? && CacheEnabled() && ExtractEntityID(shapeOf(created.value)).Some? ==>
                cache == Filled(old(cache), ExtractEntityID(shapeOf(created.value)).value, created.value)
      ensures !(created.Success? && CacheEnabled() && ExtractEntityID(shapeOf(created.value)).Some?) ==>
                cache == old(cache)
    {
      if created.Failure? {
        return Fail(created.error);
      }
      SetCacheFromEntity(created.value);
      return Pass;
    }

    /**
     * GetByID.  `first` is what First(&entity, id) gives when the database
     * is asked.  Without preloads and with the cache on, a decodable entry
     * answers and the database is not asked; otherwise the database answers
     * and, without preloads, its row is cached under `id`.
     */
    method GetByID(id: Uuid, preloads: seq<string>, first: Result<T, DbError>) returns (r: Result<T, DbError>)
      modifies this
      ensures CacheEnabled() && |preloads| == 0 && Hit(old(cache), id) ==>
                r == Success(old(cache)[id].value) && cache == old(cache)
      ensures !(CacheEnabled() && |preloads| == 0 && Hit(old(cache), id)) ==> r == first
      ensures CacheEnabled() && |preloads| == 0 && !Hit(old(cache), id) ==>
                cache == (if first.Success? then Filled(AfterMiss(old(cache), id), id, first.value)
                          else AfterMiss(old(cache), id))
      ensures !(CacheEnabled() && |preloads| == 0) ==> cache == old(cache)
    {
      if CacheEnabled() && |preloads| == 0 {
        var cached := GetCachedById(id);
        if cached.Some? {
          return Success(cached.value);
        }
      }
      if first.Failure? {
        return first;
      }
      SetCache(id, Some(first.value), preloads);
      return first;
    }

    /**
     * Update.  `written` is the entity after Updates/Save, or its error.  A
     * successful write evicts the entity's cache key; a failed one leaves
     * the cache alone.
     */
    method Update(written: Result<T, DbError>) returns (r: Result<T, DbError>)
      modifies this
      ensures r == written
      ensures written.Success? && CacheEnabled() && ExtractEntityID(shapeOf(written.value)).Some? ==>
                cache == old(cache) - {ExtractEntityID(shapeOf(written.value)).value}
      ensures !(written.Success? && CacheEnabled() && ExtractEntityID(shapeOf(written.value)).Some?) ==>
                cache == old(cache)
    {
      if written.Failure? {
        return written;
      }
      EvictCacheFromEntity(written.value);
      return written;
    }

    /** Destroy (soft delete); `deleteError` is the Delete call's error, if any. */
    method Destroy(id: Uuid, deleteError: Option<DbError>) returns (r: Outcome<DbError>)
      modifies this
      ensures r == (if deleteError.Some? then Fail(deleteError.value) else Pass)
      ensures deleteError.None? && CacheEnabled() ==> cache == old(cache) - {id}
      ensures !(deleteError.None? && CacheEnabled()) ==> cache == old(cache)
    {
      if deleteError.Some? {
        return Fail(deleteError.value);
      }
      EvictCache(id);
      return Pass;
    }

    /** Kill (hard delete); `deleteError` is the unscoped Delete's error, if any. */
    method Kill(id: Uuid, deleteError: Option<DbError>) returns (r: Outcome<DbError>)
      modifies this
      ensures r == (if deleteError.Some? then Fail(deleteError.value) else Pass)
      ensures deleteError.None? && CacheEnabled() ==> cache == old(cache) - {id}
      ensures !(deleteError.None? && CacheEnabled()) ==> cache == old(cache)
    {
      if deleteError.Some? {
        return Fail(deleteError.value);
      }
      EvictCache(id);
      return Pass;
    }

    /**
     * Restore: clear deleted_at (`restoreError` is that call's error), evict,
     * then read the row back through GetByID without preloads, which (the
     * key being gone) asks the database, whose answer is `first`, and caches
     * it.
     */
    method Restore(id: Uuid, restoreError: Option<DbError>, first: Result<T, DbError>) returns (r: Result<T, DbError>)
      modifies this
      ensures restoreError.Some? ==> r == Failure(restoreError.value) && cache == old(cache)
      ensures restoreError.None? ==> r == first
      ensures restoreError.None? && CacheEnabled() ==>
                cache == (if first.Success? then Filled(old(cache) - {id}, id, first.value) else old(cache) - {id})
      ensures !CacheEnabled() ==> cache == old(cache)
    {
      if restoreError.Some? {
        return Failure(restoreError.value);
      }
      EvictCache(id);
      assert CacheEnabled() ==> !Hit(cache, id) && AfterMiss(cache, id) == cache;
      r := GetByID(id, [], first);
    }
  }
}
