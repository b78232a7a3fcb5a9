/** Self-service registration: the form is validated, the email must be
    new, and a row with the bcrypt hash of the password and the EMPLOYEE
    role is added; the new user is then signed in and sent to the
    dashboard. bcrypt's `hash` and the database's id generator are
    parameters. */
module Register {
  import opened Wrappers
  import opened Strings
  import opened Rbac
  import opened Users
  import Auth

  /** The four form fields; `formData.get` gives no value for a missing
      one. */
  datatype RegisterForm = RegisterForm(
    email: Option<string>, password: Option<string>,
    firstName: Option<string>, lastName: Option<string>)

  /** The returned error, or the page the new user is redirected to, with
      the table after the call. */
  datatype RegisterOutcome = RegisterOutcome(result: Result<string, string>, store: UserStore)

  const MissingFieldsError := "All fields are required."
  const DuplicateEmailError := "An account with this email already exists."
  const AfterRegistration := "/dashboard"

  predicate AllFieldsGiven(form: RegisterForm) {
    Truthy(form.email) && Truthy(form.password) && Truthy(form.firstName) && Truthy(form.lastName)
  }

  /** `register(formData)`, with `newId` the id the database assigns and
      `hash` bcrypt at cost 12. A missing field and a taken email are
      reported with the table unchanged; otherwise exactly one row is added,
      under the given email, holding the given names, the hash of the
      password and the EMPLOYEE role, and every other row is kept. */
  function Register(form: RegisterForm, store: UserStore, newId: string, hash: string -> string)
    : (out: RegisterOutcome)
    ensures !AllFieldsGiven(form) ==> out == RegisterOutcome(Failure(MissingFieldsError), store)
    ensures AllFieldsGiven(form) && form.email.value in store ==>
      out == RegisterOutcome(Failure(DuplicateEmailError), store)
    ensures out.result.Success? <==> AllFieldsGiven(form) && form.email.value !in store
    ensures out.result.Success? ==>
      && out.result.value == AfterRegistration
      && out.store.Keys == store.Keys + {form.email.value}
      && |out.store| == |store| + 1
      && (forall e :: e in store ==> out.store[e] == store[e])
      && out.store[form.email.value].id == newId
      && out.store[form.email.value].email == form.email.value
      && out.store[form.email.value].hashedPassword == Some(hash(form.password.value))
      && out.store[form.email.value].firstName == form.firstName.value
      && out.store[form.email.value].lastName == form.lastName.value
      && out.store[form.email.value].role == Employee
  {
    if !AllFieldsGiven(form) then RegisterOutcome(Failure(MissingFieldsError), store)
    else if FindUnique(store, form.email.value).Some? then RegisterOutcome(Failure(DuplicateEmailError), store)
    else
      var email := form.email.value;
      var row := User(newId, email, Some(hash(form.password.value)), form.firstName.value, form.lastName.value, Employee);
      RegisterOutcome(Success(AfterRegistration), store[email := row])
  }

  /** Registration keeps every row under its own email, so emails stay
      unique, and keeps ids distinct when the new id is fresh. */
  lemma RegisterPreservesUniqueness(form: RegisterForm, store: UserStore, newId: string, hash: string -> string)
    requires WellKeyed(store)
    ensures WellKeyed(Register(form, store, newId, hash).store)
    ensures DistinctIds(store) && (forall e :: e in store ==> store[e].id != newId) ==>
      DistinctIds(Register(form, store, newId, hash).store)
  {
  }

  /** Registering the same email a second time is refused and leaves the
      table as the first registration left it. */
  lemma RegisterTwiceRefused(
    form: RegisterForm, store: UserStore, newId: string, otherId: string, hash: string -> string)
    requires Register(form, store, newId, hash).result.Success?
    ensures var after := Register(form, store, newId, hash).store;
      Register(form, after, otherId, hash) == RegisterOutcome(Failure(DuplicateEmailError), after)
  {
  }

  /** The stored credential is the hash of the password: when `hash` never
      returns its argument, the password itself is never stored. */
  lemma PasswordNeverStored(form: RegisterForm, store: UserStore, newId: string, hash: string -> string)
    requires Register(form, store, newId, hash).result.Success?
    requires forall p :: hash(p) != p
    ensures Register(form, store, newId, hash).store[form.email.value].hashedPassword != form.password
  {
    assert hash(form.password.value) != form.password.value;
  }

  /** Registering and then signing in with the same email and password
      yields the new user, named by first and last name, with the EMPLOYEE
      role, provided `hash` never returns the empty string (a bcrypt hash
      never does) and `compare` accepts a password against its own hash. */
  lemma RegisterThenSignIn(
    form: RegisterForm, store: UserStore, newId: string,
    hash: string -> string, compare: (string, string) -> bool)
    requires Register(form, store, newId, hash).result.Success?
    requires forall p :: hash(p) != ""
    requires forall p :: compare(p, hash(p))
    ensures Auth.Authorize(Auth.Credentials(form.email, form.password), Register(form, store, newId, hash).store, compare)
      == Some(Auth.AuthUser(newId, form.email.value, form.firstName.value + " " + form.lastName.value, Employee))
  {
    var after := Register(form, store, newId, hash).store;
    assert compare(form.password.value, hash(form.password.value));
    assert hash(form.password.value) != "";
    assert after[form.email.value].hashedPassword == Some(hash(form.password.value));
  }
}
