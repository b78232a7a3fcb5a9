/** The user table as the authentication code sees it: one row per email
    address, looked up with `findUnique({ where: { email } })`. The
    database schema is not part of this model; the row holds the columns
    the sign-in and registration code read and write. */
module Users {
  import opened Wrappers
  import opened Rbac

  datatype User = User(
    id: string,
    email: string,
    hashedPassword: Option<string>,
    firstName: string,
    lastName: string,
    role: Role)

  /** The table, keyed by the unique email column. */
  type UserStore = map<string, User>

  /** Every row sits under its own email, so no two rows share one. */
  predicate WellKeyed(store: UserStore) {
    forall email :: email in store ==> store[email].email == email
  }

  /** No two rows share an id. */
  predicate DistinctIds(store: UserStore) {
    forall e1, e2 :: e1 in store && e2 in store && e1 != e2 ==> store[e1].id != store[e2].id
  }

  /** `findUnique({ where: { email } })`: the row stored under `email`, or
      nothing when there is none; in a well-keyed table that row carries
      the email asked for. */
  function FindUnique(store: UserStore, email: string): (r: Option<User>)
    ensures r.Some? <==> email in store
    ensures r.Some? ==> r.value == store[email]
    ensures WellKeyed(store) && r.Some? ==> r.value.email == email
  {
    if email in store then Some(store[email]) else None
  }
}
