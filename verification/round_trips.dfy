/** The three layers run against the table stand-in: each method issues the repository's
    statement, maps the answer through the repository and then the service, as a request does.
    Their contracts are the round trips the handler integration tests check. */
module RoundTrips {
  import opened Wrappers
  import opened Errors
  import opened Model
  import opened Repository
  import UsersTable
  import Service

  /** Looking a uuid up through the service. */
  function GetByUuid(db: UsersTable.Table, uuid: string): (res: UserResult)
    reads db
    ensures uuid in db.rows ==> res == UserResult(Some(db.rows[uuid]), None)
    ensures uuid !in db.rows ==> res == UserResult(None, Some(UserNotFound))
  {
    Service.GetOne(db.SelectByUuid(uuid))
  }

  /** Create: on success the returned user carries the input's username, email and full name
      with a fresh id and uuid, and is then found by that uuid; the only error the stand-in can
      cause is the unique sentinel, and it leaves the table unchanged. */
  method CreateUser(db: UsersTable.Table, user: User, generatedUuid: string) returns (res: UserResult)
    requires db.Valid()
    modifies db
    ensures db.Valid()
    ensures res.user.Some? != res.err.Some?
    ensures res.user.Some? ==>
              var u := res.user.value;
              && u.username == user.username && u.email == user.email && u.fullName == user.fullName
              && u.uuid == generatedUuid && u.id == old(db.nextId)
              && GetByUuid(db, u.uuid) == UserResult(Some(u), None)
              && db.rows == old(db.rows)[u.uuid := u]
    ensures res.err.Some? ==> res.err == Some(ErrUniqueConstraint) && db.rows == old(db.rows)
    ensures res.err.Some? <==>
              generatedUuid in old(db.rows) ||
              UsersTable.TakenByOther(old(db.rows), user.username, user.email, None)
  {
    var r := db.Insert(InsertArgsOf(user), generatedUuid);
    res := Service.Create(CreateOutcome(r));
  }

  /** Creating a second user with the username of the first, whatever its email: the first
      create succeeds, the second is the unique sentinel and leaves the table as the first
      create left it. */
  method CreateTwice(db: UsersTable.Table, user: User, other: User, uuid1: string, uuid2: string)
    returns (first: UserResult, second: UserResult)
    requires db.Valid() && uuid1 !in db.rows
    requires !UsersTable.TakenByOther(db.rows, user.username, user.email, None)
    requires other.username == user.username
    modifies db
    ensures db.Valid()
    ensures first.user.Some? && first.err.None?
    ensures second == UserResult(None, Some(ErrUniqueConstraint))
    ensures db.rows == old(db.rows)[uuid1 := first.user.value]
  {
    first := CreateUser(db, user, uuid1);
    var u := first.user.value;
    assert db.rows[uuid1] == u;
    assert UsersTable.TakenByOther(db.rows, other.username, other.email, None);
    second := CreateUser(db, other, uuid2);
  }

  /** Update: on success the user found by that uuid carries the new username, email and full
      name and keeps its id and uuid; an unknown uuid is "user is not found"; any error leaves
      the table unchanged. */
  method UpdateUser(db: UsersTable.Table, uuid: string, user: User) returns (res: UserResult)
    requires db.Valid()
    modifies db
    ensures db.Valid()
    ensures res.user.Some? != res.err.Some?
    ensures uuid !in old(db.rows) ==> res == UserResult(None, Some(UserNotFound))
    ensures res.user.Some? ==>
              var u := res.user.value;
              && uuid in old(db.rows)
              && u.id == old(db.rows)[uuid].id && u.uuid == uuid
              && u.username == user.username && u.email == user.email && u.fullName == user.fullName
              && GetByUuid(db, uuid) == UserResult(Some(u), None)
              && db.rows == old(db.rows)[uuid := u]
    ensures res.err.Some? ==> db.rows == old(db.rows)
    ensures res.err.Some? && uuid in old(db.rows) ==> res.err == Some(ErrUniqueConstraint)
    ensures res.err.Some? <==>
              uuid !in old(db.rows) ||
              UsersTable.TakenByOther(old(db.rows), user.username, user.email, Some(uuid))
  {
    var r := db.Update(UpdateArgsOf(uuid, user));
    res := Service.Update(UpdateOutcome(r));
  }

  /** Delete: succeeds exactly when the uuid was present, after which it is not found; an
      unknown uuid is "user is not found" and changes nothing. */
  method DeleteUser(db: UsersTable.Table, uuid: string) returns (err: Option<Error>)
    requires db.Valid()
    modifies db
    ensures db.Valid()
    ensures err.None? <==> uuid in old(db.rows)
    ensures err.Some? ==> err == Some(UserNotFound)
    ensures db.rows == old(db.rows) - {uuid}
    ensures GetByUuid(db, uuid) == UserResult(None, Some(UserNotFound))
  {
    var r := db.Delete(uuid);
    err := Service.Delete(DeleteOutcome(r));
  }

  /** Deleting twice: the effect is that of one delete, and the second always reports
      "user is not found". */
  method DeleteTwice(db: UsersTable.Table, uuid: string) returns (first: Option<Error>, second: Option<Error>)
    requires db.Valid()
    modifies db
    ensures db.Valid()
    ensures db.rows == old(db.rows) - {uuid}
    ensures second == Some(UserNotFound)
  {
    first := DeleteUser(db, uuid);
    second := DeleteUser(db, uuid);
  }
}
