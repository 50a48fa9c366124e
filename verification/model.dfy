/** The single persisted entity, `model.User` in internal/model/users.go. */
module Model {

  /** One row of the `users` table: `id` and `uuid` are assigned by the database;
      `username` and `email` are unique among live rows (a database constraint);
      `fullName` is free text. */
  datatype User = User(id: int, uuid: string, username: string, email: string, fullName: string)
}
