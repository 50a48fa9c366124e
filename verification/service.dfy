/** The domain-service layer of internal/service/users.go: a conditional mapping of each
    repository result, turning "absent" into the "user is not found" error. */
module Service {
  import opened Wrappers
  import opened Errors
  import opened Model
  import opened Repository

  /** The service's `ErrUniqueConstraint` is the repository's sentinel itself. */
  const ServiceErrUniqueConstraint: Error := ErrUniqueConstraint

  /** `ensureUserExists`: an error wins (and drops any user), a missing user becomes
      "user is not found", a present user is returned unchanged. */
  function EnsureUserExists(p: UserResult): (r: UserResult)
    ensures r.user.Some? != r.err.Some?
    ensures p.err.Some? ==> r == UserResult(None, p.err)
    ensures p.err.None? && p.user.None? ==> r == UserResult(None, Some(UserNotFound))
    ensures p.err.None? && p.user.Some? ==> r == p
  {
    if p.err.Some? then UserResult(None, p.err)
    else if p.user.None? then UserResult(None, Some(UserNotFound))
    else p
  }

  /** `GetByUsername`, `GetByID`, `GetByUUID` of the service, over one scan outcome of the
      driver: a row is returned, no-rows becomes "user is not found", any other driver error
      passes through; never (nil, nil). */
  function GetOne(r: RowResult): (res: UserResult)
    ensures res.user.Some? != res.err.Some?
    ensures r.Row? ==> res == UserResult(Some(r.user), None)
    ensures r == Failed(ErrNoRows) ==> res == UserResult(None, Some(UserNotFound))
    ensures r.Failed? && r.err != ErrNoRows ==> res == UserResult(None, Some(r.err))
  {
    EnsureUserExists(Repository.GetOne(r))
  }

  /** `GetAll` of the service is the repository's result, unchanged. */
  function GetAll(l: ListResult): (r: ListResult)
    ensures r.users == l.users && r.err == l.err
  {
    l
  }

  /** `Create`: any error that is (or wraps) the unique sentinel becomes the service sentinel;
      other errors pass through; on success the created user is returned. */
  function Create(p: UserResult): (r: UserResult)
    ensures !(r.user.Some? && r.err.Some?)
    ensures p.err.Some? && Is(p.err.value, ErrUniqueConstraint) ==>
              r == UserResult(None, Some(ServiceErrUniqueConstraint))
    ensures p.err.Some? && !Is(p.err.value, ErrUniqueConstraint) ==> r == UserResult(None, p.err)
    ensures p.err.None? ==> r == p
  {
    if p.err.Some? then
      if Is(p.err.value, ErrUniqueConstraint) then UserResult(None, Some(ServiceErrUniqueConstraint))
      else UserResult(None, p.err)
    else p
  }

  /** `Update`: the unique sentinel as in Create, other errors pass through, an absent row
      becomes "user is not found", otherwise the updated user. Never (nil, nil). */
  function Update(p: UserResult): (r: UserResult)
    ensures r.user.Some? != r.err.Some?
    ensures p.err.Some? && Is(p.err.value, ErrUniqueConstraint) ==>
              r == UserResult(None, Some(ServiceErrUniqueConstraint))
    ensures p.err.Some? && !Is(p.err.value, ErrUniqueConstraint) ==> r == UserResult(None, p.err)
    ensures p.err.None? && p.user.None? ==> r == UserResult(None, Some(UserNotFound))
    ensures p.err.None? && p.user.Some? ==> r == p
  {
    if p.err.Some? then
      if Is(p.err.value, ErrUniqueConstraint) then UserResult(None, Some(ServiceErrUniqueConstraint))
      else UserResult(None, p.err)
    else if p.user.None? then UserResult(None, Some(UserNotFound))
    else p
  }

  /** `Delete`: exactly `sql.ErrNoRows` (compared with ==, not errors.Is) becomes
      "user is not found"; other errors pass through; success is nil. */
  function Delete(err: Option<Error>): (r: Option<Error>)
    ensures err == Some(ErrNoRows) ==> r == Some(UserNotFound)
    ensures err != Some(ErrNoRows) ==> r == err
  {
    if err == Some(ErrNoRows) then Some(UserNotFound) else err
  }

  // ---------------------------------------------------------------------------------------
  // The layering contract: driver outcome -> repository -> service

  /** Create through both layers: a unique violation reported by the driver reaches the caller
      as the sentinel, any other driver error unchanged, and a create never yields (nil, nil). */
  lemma CreateThroughLayers(r: RowResult)
    ensures var res := Create(Repository.CreateOutcome(r));
      && res.user.Some? != res.err.Some?
      && (r.Row? ==> res.user == Some(r.user))
      && (r == Failed(PqError(UniqueViolation)) ==> res.err == Some(ErrUniqueConstraint))
      && (r.Failed? && !IsUniqueConstraintError(r.err) && !Is(r.err, ErrUniqueConstraint) ==>
            res.err == Some(r.err))
  {
  }

  /** Update through both layers: a missing uuid is "user is not found", a unique violation is
      the sentinel, any other driver error passes through unchanged. */
  lemma UpdateThroughLayers(r: RowResult)
    ensures var res := Update(Repository.UpdateOutcome(r));
      && res.user.Some? != res.err.Some?
      && (r.Row? ==> res.user == Some(r.user))
      && (r == Failed(ErrNoRows) ==> res.err == Some(UserNotFound))
      && (r == Failed(PqError(UniqueViolation)) ==> res.err == Some(ErrUniqueConstraint))
      && ((r.Failed? && r.err != ErrNoRows && !IsUniqueConstraintError(r.err) &&
           !Is(r.err, ErrUniqueConstraint)) ==> res.err == Some(r.err))
  {
  }

  /** Delete through both layers: zero rows affected is "user is not found"; success is nil
      exactly when some row was affected; a driver error reaches the caller unchanged. */
  lemma DeleteThroughLayers(r: ExecResult)
    ensures var err := Delete(Repository.DeleteOutcome(r));
      && (r == Executed(0) ==> err == Some(UserNotFound))
      && (err.None? <==> r.Executed? && r.rowsAffected != 0)
      && ((r.ExecFailed? || r.CountFailed?) && r.err != ErrNoRows ==> err == Some(r.err))
  {
  }
}
