/** The storage-access layer of internal/repository/users.go: how each repository method turns
    what the SQL driver reported into the repository's `(user, err)` result. The statements
    themselves are issued by the database (see module UsersTable); here the driver's answer is
    an input. */
module Repository {
  import opened Wrappers
  import opened Errors
  import opened Model

  /** What `QueryRowContext(...).Scan(...)` reported: a scanned row or an error
      (`ErrNoRows` when the statement matched no row). */
  datatype RowResult = Row(user: User) | Failed(err: Error)

  /** What `ExecContext` followed by `RowsAffected` reported. */
  datatype ExecResult =
    | ExecFailed(err: Error)              // ExecContext returned an error
    | CountFailed(err: Error)             // RowsAffected returned an error
    | Executed(rowsAffected: int)

  /** The Go pair `(*model.User, error)`; `None` is `nil`. */
  datatype UserResult = UserResult(user: Option<User>, err: Option<Error>)

  /** Bind parameters `$1..$3` of the INSERT statement. */
  datatype InsertArgs = InsertArgs(username: string, email: string, fullName: string)

  /** Bind parameters `$1..$4` of the UPDATE statement. */
  datatype UpdateArgs = UpdateArgs(username: string, email: string, fullName: string, uuid: string)

  /** `isUniqueConstraintError`: a pq error (not one wrapped in another) with code 23505. */
  function IsUniqueConstraintError(e: Error): (r: bool)
    ensures r <==> e == PqError(UniqueViolation)
  {
    match e
    case PqError(code) => code == UniqueViolation
    case _ => false
  }

  /** `GetByUsername`, `GetByID` and `GetByUUID`: the three differ only in the WHERE clause
      and map the scan outcome identically. */
  function GetOne(r: RowResult): (res: UserResult)
    ensures !(res.user.Some? && res.err.Some?)
    ensures res.user.Some? <==> r.Row?
    ensures r.Row? ==> res.user == Some(r.user)
    ensures res.err.None? && res.user.None? <==> r == Failed(ErrNoRows)
    ensures res.err.Some? <==> r.Failed? && r.err != ErrNoRows
    ensures res.err.Some? ==> res.err.value == r.err
  {
    match r
    case Row(u) => UserResult(Some(u), None)
    case Failed(e) => if e == ErrNoRows then UserResult(None, None) else UserResult(None, Some(e))
  }

  /** The arguments `Create` sends: only username, email and full name. */
  function InsertArgsOf(user: User): (a: InsertArgs)
  {
    InsertArgs(user.username, user.email, user.fullName)
  }

  /** The arguments `Update` sends: the new username, email and full name, and the target uuid. */
  function UpdateArgsOf(uuid: string, user: User): (a: UpdateArgs)
  {
    UpdateArgs(user.username, user.email, user.fullName, uuid)
  }

  /** `Create` and `Update` never send the input record's `id` or `uuid`: two inputs that agree
      on username, email and full name issue the same statement. */
  lemma ArgsIgnoreIdAndUuid(u1: User, u2: User, uuid: string)
    requires u1.username == u2.username && u1.email == u2.email && u1.fullName == u2.fullName
    ensures InsertArgsOf(u1) == InsertArgsOf(u2)
    ensures UpdateArgsOf(uuid, u1) == UpdateArgsOf(uuid, u2)
    ensures InsertArgsOf(u1) == InsertArgs(u1.username, u1.email, u1.fullName)
    ensures UpdateArgsOf(uuid, u1).uuid == uuid
  {
  }

  /** `Create`: a unique violation becomes the sentinel, every other error passes through
      unchanged (including `ErrNoRows`: there is no absent case), a row is returned. */
  function CreateOutcome(r: RowResult): (res: UserResult)
    ensures res.user.Some? != res.err.Some?
    ensures r.Row? ==> res == UserResult(Some(r.user), None)
    ensures r.Failed? && IsUniqueConstraintError(r.err) ==> res.err == Some(ErrUniqueConstraint)
    ensures r.Failed? && !IsUniqueConstraintError(r.err) ==> res.err == Some(r.err)
  {
    match r
    case Row(u) => UserResult(Some(u), None)
    case Failed(e) =>
      if IsUniqueConstraintError(e) then UserResult(None, Some(ErrUniqueConstraint))
      else UserResult(None, Some(e))
  }

  /** `Update`: no-rows is checked first and means "absent" (nil, nil); then a unique violation
      becomes the sentinel; other errors pass through. */
  function UpdateOutcome(r: RowResult): (res: UserResult)
    ensures !(res.user.Some? && res.err.Some?)
    ensures r.Row? ==> res == UserResult(Some(r.user), None)
    ensures r == Failed(ErrNoRows) ==> res == UserResult(None, None)
    ensures r.Failed? && r.err != ErrNoRows && IsUniqueConstraintError(r.err) ==>
              res.err == Some(ErrUniqueConstraint)
    ensures r.Failed? && r.err != ErrNoRows && !IsUniqueConstraintError(r.err) ==>
              res.err == Some(r.err)
    ensures res.user.None? && res.err.None? ==> r == Failed(ErrNoRows)
  {
    match r
    case Row(u) => UserResult(Some(u), None)
    case Failed(e) =>
      if e == ErrNoRows then UserResult(None, None)
      else if IsUniqueConstraintError(e) then UserResult(None, Some(ErrUniqueConstraint))
      else UserResult(None, Some(e))
  }

  /** `Delete`: driver errors propagate; zero rows affected becomes `ErrNoRows`; otherwise nil. */
  function DeleteOutcome(r: ExecResult): (err: Option<Error>)
    ensures err == Some(ErrNoRows) <==>
              r == Executed(0) || r == ExecFailed(ErrNoRows) || r == CountFailed(ErrNoRows)
    ensures err.None? <==> r.Executed? && r.rowsAffected != 0
    ensures (r.ExecFailed? || r.CountFailed?) ==> err == Some(r.err)
  {
    match r
    case ExecFailed(e) => Some(e)
    case CountFailed(e) => Some(e)
    case Executed(n) => if n == 0 then Some(ErrNoRows) else None
  }

  // ---------------------------------------------------------------------------------------
  // GetAll

  /** One `rows.Scan` outcome. */
  datatype Scan = Scanned(user: User) | ScanFailed(err: Error)

  /** What `QueryContext` produced: an error, or a cursor whose rows scan one after another,
      followed by the error `rows.Err()` reports once `rows.Next()` is false. */
  datatype Cursor = QueryFailed(err: Error) | Rows(scans: seq<Scan>, iterErr: Option<Error>)

  /** The Go pair `([]model.User, error)`. A nil slice and an empty one are both `[]`. */
  datatype ListResult = ListResult(users: seq<User>, err: Option<Error>)

  /** Scanning rows in order: the first failing scan decides the error; otherwise one user per
      row, in row order. */
  function ScanAll(scans: seq<Scan>): (r: ScanResult)
    ensures r.Ok? ==> |r.users| == |scans|
    ensures r.Ok? ==> forall i :: 0 <= i < |scans| ==> scans[i] == Scanned(r.users[i])
    ensures r.Err? ==> 0 <= r.at < |scans| && scans[r.at].ScanFailed? && scans[r.at].err == r.err
    ensures r.Err? ==> forall i :: 0 <= i < r.at ==> scans[i].Scanned?
    ensures r.Ok? <==> forall i :: 0 <= i < |scans| ==> scans[i].Scanned?
  {
    if scans == [] then Ok([])
    else
      var init := scans[..|scans| - 1];
      var last := scans[|scans| - 1];
      match ScanAll(init)
      case Err(at, e) => Err(at, e)
      case Ok(users) =>
        match last
        case ScanFailed(e) => Err(|scans| - 1, e)
        case Scanned(u) => Ok(users + [u])
  }

  /** Result of scanning: every user, or the error of the first failing row and its position. */
  datatype ScanResult = Ok(users: seq<User>) | Err(at: nat, err: Error)

  /** Once a prefix fails, every extension fails with the same error. */
  lemma {:induction false} ScanAllErrPersists(scans: seq<Scan>, k: nat)
    requires k <= |scans| && ScanAll(scans[..k]).Err?
    ensures ScanAll(scans) == ScanAll(scans[..k])
    decreases |scans| - k
  {
    if k < |scans| {
      assert scans[..k + 1][..k] == scans[..k];
      ScanAllErrPersists(scans, k + 1);
    } else {
      assert scans[..k] == scans;
    }
  }

  /** What `GetAll` returns for a cursor. */
  function ListOutcome(c: Cursor): (res: ListResult)
  {
    match c
    case QueryFailed(e) => ListResult([], Some(e))
    case Rows(scans, iterErr) =>
      match ScanAll(scans)
      case Err(_, e) => ListResult([], Some(e))
      case Ok(users) => if iterErr.Some? then ListResult([], iterErr) else ListResult(users, None)
  }

  /** `GetAll`: appends one user per scanned row, returning early on the first scan error; an
      iteration error discards the list. */
  method GetAll(c: Cursor) returns (res: ListResult)
    ensures res == ListOutcome(c)
    ensures res.err.Some? ==> res.users == []
    ensures res.err.None? <==>
              c.Rows? && c.iterErr.None? && forall i :: 0 <= i < |c.scans| ==> c.scans[i].Scanned?
    ensures res.err.None? ==>
              |res.users| == |c.scans| &&
              forall i :: 0 <= i < |c.scans| ==> c.scans[i] == Scanned(res.users[i])
  {
    if c.QueryFailed? {
      return ListResult([], Some(c.err));
    }
    var users: seq<User> := [];
    var i := 0;
    while i < |c.scans|
      invariant 0 <= i <= |c.scans|
      invariant ScanAll(c.scans[..i]) == Ok(users)
    {
      assert c.scans[..i + 1][..i] == c.scans[..i];
      if c.scans[i].ScanFailed? {
        ScanAllErrPersists(c.scans, i + 1);
        return ListResult([], Some(c.scans[i].err));
      }
      users := users + [c.scans[i].user];
      i := i + 1;
    }
    assert c.scans[..i] == c.scans;
    if c.iterErr.Some? {
      return ListResult([], c.iterErr);
    }
    return ListResult(users, None);
  }
}
