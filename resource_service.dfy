/**
 * The generic resource service of the API
 * (apps/api/internal/service/resource.go).  It calls a repository and turns
 * the repository's errors into API errors.
 *
 * The repository is any implementation, so each method receives the
 * answers its repository calls give, and returns, besides its result, the
 * calls it made, in order.
 */
module ResourceServices {
  import opened Wrappers
  import opened ApiTypes

  /** A repository call, as the service issues it. */
  datatype RepoCall<T> =
    | StoreCall(entity: T)
    | GetByIDCall(id: Uuid, preloads: seq<string>)
    | GetManyCall
    | UpdateCall(entity: T, updates: map<Column, string>)
    | DestroyCall(id: Uuid)
    | KillCall(id: Uuid)
    | RestoreCall(id: Uuid)

  datatype ResourceService = ResourceService(resourceName: string) {

    function NotFoundMessage(): string {
      resourceName + " not found"
    }

    /**
     * The error mapping every method uses: exactly gorm.ErrRecordNotFound
     * (compared with ==) becomes NotFound with "<resource> not found";
     * anything else, an error wrapping ErrRecordNotFound included, goes to
     * sqlerr.HandleError.
     */
    function MapError(e: DbError): (r: ApiError)
      ensures r.NotFound? <==> e == RecordNotFound
      ensures r.NotFound? ==> r.message == resourceName + " not found"
      ensures !r.NotFound? ==> r == Handled(e)
    {
      if e == RecordNotFound then NotFound(NotFoundMessage()) else Handled(e)
    }

    /** Store: the DTO's model is stored and returned. */
    method Store<T>(entity: T, stored: Outcome<DbError>) returns (r: Result<T, ApiError>, calls: seq<RepoCall<T>>)
      ensures calls == [StoreCall(entity)]
      ensures stored.Pass? ==> r == Success(entity)
      ensures stored.Fail? ==> r == Failure(Handled(stored.error))
    {
      calls := [StoreCall(entity)];
      if stored.Fail? {
        return Failure(Handled(stored.error)), calls;
      }
      return Success(entity), calls;
    }

    /** GetByID: one lookup, with the error mapping. */
    method GetByID<T>(id: Uuid, preloads: seq<string>, found: Result<T, DbError>)
      returns (r: Result<T, ApiError>, calls: seq<RepoCall<T>>)
      ensures calls == [GetByIDCall(id, preloads)]
      ensures found.Success? ==> r == Success(found.value)
      ensures found.Failure? ==> r == Failure(MapError(found.error))
    {
      calls := [GetByIDCall(id, preloads)];
      if found.Failure? {
        return Failure(MapError(found.error)), calls;
      }
      return Success(found.value), calls;
    }

    /** GetMany: the repository's page and count, or its error through HandleError. */
    method GetMany<T>(listed: Result<(seq<T>, int), DbError>)
      returns (r: Result<(seq<T>, int), ApiError>, calls: seq<RepoCall<T>>)
      ensures calls == [GetManyCall]
      ensures listed.Success? ==> r == Success(listed.value)
      ensures listed.Failure? ==> r == Failure(Handled(listed.error))
    {
      calls := [GetManyCall];
      if listed.Failure? {
        return Failure(Handled(listed.error)), calls;
      }
      return Success(listed.value), calls;
    }

    /**
     * Update: look the entity up first; with an empty update map return it
     * as found and never call repo.Update; otherwise write the map and return
     * what the write returns.  Not-found at either step is NotFound.
     */
    method Update<T>(id: Uuid, updates: map<Column, string>, found: Result<T, DbError>, written: Result<T, DbError>)
      returns (r: Result<T, ApiError>, calls: seq<RepoCall<T>>)
      ensures |calls| >= 1 && calls[0] == GetByIDCall(id, [])
      ensures found.Failure? ==> r == Failure(MapError(found.error)) && |calls| == 1
      ensures found.Success? && |updates| == 0 ==> r == Success(found.value) && |calls| == 1
      ensures found.Success? && |updates| > 0 ==>
                calls == [GetByIDCall(id, []), UpdateCall(found.value, updates)]
                && r == (if written.Success? then Success(written.value) else Failure(MapError(written.error)))
      ensures forall i | 0 <= i < |calls| :: calls[i].UpdateCall? ==> |updates| > 0
    {
      calls := [GetByIDCall(id, [])];
      if found.Failure? {
        return Failure(MapError(found.error)), calls;
      }
      if |updates| == 0 {
        return Success(found.value), calls;
      }
      calls := calls + [UpdateCall(found.value, updates)];
      if written.Failure? {
        return Failure(MapError(written.error)), calls;
      }
      return Success(written.value), calls;
    }

    /** Destroy: nil on success, NotFound on ErrRecordNotFound. */
    method Destroy<T>(id: Uuid, outcome: Outcome<DbError>) returns (r: Outcome<ApiError>, calls: seq<RepoCall<T>>)
      ensures calls == [DestroyCall(id)]
      ensures r == (if outcome.Pass? then Pass else Fail(MapError(outcome.error)))
    {
      calls := [DestroyCall(id)];
      if outcome.Fail? {
        return Fail(MapError(outcome.error)), calls;
      }
      return Pass, calls;
    }

    /** Kill: nil on success, NotFound on ErrRecordNotFound. */
    method Kill<T>(id: Uuid, outcome: Outcome<DbError>) returns (r: Outcome<ApiError>, calls: seq<RepoCall<T>>)
      ensures calls == [KillCall(id)]
      ensures r == (if outcome.Pass? then Pass else Fail(MapError(outcome.error)))
    {
      calls := [KillCall(id)];
      if outcome.Fail? {
        return Fail(MapError(outcome.error)), calls;
      }
      return Pass, calls;
    }

    /**
     * Restore: without preloads the restored entity is returned with no
     * second read; with preloads the entity is read again through GetByID
     * with those preloads, and that read's answer is the result.
     */
    method Restore<T>(id: Uuid, preloads: seq<string>, restored: Result<T, DbError>, reread: Result<T, DbError>)
      returns (r: Result<T, ApiError>, calls: seq<RepoCall<T>>)
      ensures restored.Failure? ==> r == Failure(MapError(restored.error)) && calls == [RestoreCall(id)]
      ensures restored.Success? && |preloads| == 0 ==> r == Success(restored.value) && calls == [RestoreCall(id)]
      ensures restored.Success? && |preloads| > 0 ==>
                calls == [RestoreCall(id), GetByIDCall(id, preloads)]
                && r == (if reread.Success? then Success(reread.value) else Failure(MapError(reread.error)))
    {
      calls := [RestoreCall(id)];
      if restored.Failure? {
        return Failure(MapError(restored.error)), calls;
      }
      if |preloads| == 0 {
        return Success(restored.value), calls;
      }
      calls := calls + [GetByIDCall(id, preloads)];
      if reread.Failure? {
        return Failure(MapError(reread.error)), calls;
      }
      return Success(reread.value), calls;
    }
  }

  /** A wrapped ErrRecordNotFound satisfies errors.Is but is not turned into
      NotFound: the service compares errors with ==. */
  lemma WrappedNotFoundFallsThrough(s: ResourceService)
    ensures IsRecordNotFound(Wrapped(RecordNotFound))
    ensures s.MapError(Wrapped(RecordNotFound)) == Handled(Wrapped(RecordNotFound))
  {
  }
}
