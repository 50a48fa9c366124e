/** An abstract stand-in for the PostgreSQL `users` table the repository talks to. It answers
    the repository's INSERT, UPDATE, DELETE and SELECT-by-uuid statements the way the database
    does. Uniqueness of uuid, username and email is the database's constraint; the stand-in
    enforces it by answering with a unique_violation error. */
module UsersTable {
  import opened Wrappers
  import opened Errors
  import opened Model
  import opened Repository

  /** Some row other than the one keyed `except` already uses this username or email. */
  predicate TakenByOther(rows: map<string, User>, username: string, email: string, except: Option<string>)
  {
    exists k :: k in rows && Some(k) != except && (rows[k].username == username || rows[k].email == email)
  }

  class Table {
    /** The live rows, keyed by uuid. */
    var rows: map<string, User>
    /** The next value of the id sequence. */
    var nextId: int

    ghost predicate Valid()
      reads this
    {
      && (forall k :: k in rows ==> rows[k].uuid == k && rows[k].id < nextId)
      && (forall a, b :: a in rows && b in rows && a != b ==>
            rows[a].username != rows[b].username && rows[a].email != rows[b].email)
    }

    /** An empty table whose id sequence starts at 1. */
    constructor ()
      ensures Valid() && rows == map[] && nextId == 1
    {
      rows := map[];
      nextId := 1;
    }

    /** `SELECT ... WHERE uuid = $1`, scanned. */
    function SelectByUuid(uuid: string): (r: RowResult)
      reads this
      ensures r.Row? <==> uuid in rows
      ensures r.Row? ==> r.user == rows[uuid]
      ensures r.Failed? ==> r.err == ErrNoRows
    {
      if uuid in rows then Row(rows[uuid]) else Failed(ErrNoRows)
    }

    /** `INSERT ... RETURNING ...`: the database draws the next id (the sequence advances even
        when the insert then fails) and the generated uuid; a clash on uuid, username or email
        is a unique violation and inserts nothing. */
    method Insert(args: InsertArgs, generatedUuid: string) returns (r: RowResult)
      requires Valid()
      modifies this
      ensures Valid()
      ensures nextId == old(nextId) + 1
      ensures (generatedUuid in old(rows) || TakenByOther(old(rows), args.username, args.email, None)) ==>
                r == Failed(PqError(UniqueViolation)) && rows == old(rows)
      ensures !(generatedUuid in old(rows) || TakenByOther(old(rows), args.username, args.email, None)) ==>
                r == Row(User(old(nextId), generatedUuid, args.username, args.email, args.fullName)) &&
                rows == old(rows)[generatedUuid := r.user]
    {
      var id := nextId;
      nextId := nextId + 1;
      if generatedUuid in rows || TakenByOther(rows, args.username, args.email, None) {
        return Failed(PqError(UniqueViolation));
      }
      var u := User(id, generatedUuid, args.username, args.email, args.fullName);
      rows := rows[generatedUuid := u];
      return Row(u);
    }

    /** `UPDATE ... WHERE uuid = $4 RETURNING ...`: no matching row scans as no-rows; a clash
        with another row is a unique violation; otherwise username, email and full name change
        and id and uuid stay. */
    method Update(args: UpdateArgs) returns (r: RowResult)
      requires Valid()
      modifies this
      ensures Valid() && nextId == old(nextId)
      ensures args.uuid !in old(rows) ==> r == Failed(ErrNoRows) && rows == old(rows)
      ensures args.uuid in old(rows) && TakenByOther(old(rows), args.username, args.email, Some(args.uuid)) ==>
                r == Failed(PqError(UniqueViolation)) && rows == old(rows)
      ensures args.uuid in old(rows) && !TakenByOther(old(rows), args.username, args.email, Some(args.uuid)) ==>
                r == Row(old(rows)[args.uuid].(username := args.username, email := args.email,
                                                fullName := args.fullName)) &&
                rows == old(rows)[args.uuid := r.user]
    {
      if args.uuid !in rows {
        return Failed(ErrNoRows);
      }
      if TakenByOther(rows, args.username, args.email, Some(args.uuid)) {
        return Failed(PqError(UniqueViolation));
      }
      var u := rows[args.uuid].(username := args.username, email := args.email, fullName := args.fullName);
      rows := rows[args.uuid := u];
      return Row(u);
    }

    /** `DELETE ... WHERE uuid = $1`: reports how many rows it removed. */
    method Delete(uuid: string) returns (r: ExecResult)
      requires Valid()
      modifies this
      ensures Valid() && nextId == old(nextId)
      ensures uuid in old(rows) ==> r == Executed(1) && rows == old(rows) - {uuid}
      ensures uuid !in old(rows) ==> r == Executed(0) && rows == old(rows)
    {
      if uuid in rows {
        rows := rows - {uuid};
        return Executed(1);
      }
      return Executed(0);
    }
  }
}
