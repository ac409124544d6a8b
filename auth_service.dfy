/**
  The local credential registry: users are kept in browser storage under the users key,
  signup prepends to that list and login only reads it. Fresh ids and timestamps are
  parameters.
*/
module AuthService {
  import opened Wrappers
  import opened Text
  import opened AuthModel
  import opened StorageKeys
  import opened LocalStorage

  const RequiredFieldsError: string := "Name, email, and password are required."
  const PasswordLengthError: string := "Password must be at least 6 characters."
  const DuplicateEmailError: string := "An account with this email already exists. Please log in."
  const LoginFieldsError: string := "Email and password are required."
  const UnknownEmailError: string := "No account found for this email. Please sign up first."
  const WrongPasswordError: string := "Incorrect password. Please try again."
  const MinPasswordLength: nat := 6

  /** `normalizeEmail`: trimmed, then lower-cased. The normal form has no whitespace at
      either end and no capital letter, and is empty exactly when the address was blank. */
  function NormalizeEmail(value: string): (r: string)
    ensures r == [] || (!IsSpace(r[0]) && !IsSpace(r[|r| - 1]))
    ensures forall i :: 0 <= i < |r| ==> !('A' <= r[i] <= 'Z')
    ensures r == [] <==> AllSpace(value)
  {
    ToLower(Trim(value))
  }

  predicate Normalized(email: string) {
    NormalizeEmail(email) == email
  }

  /** Lower-casing twice is lower-casing once. */
  lemma ToLowerIdempotent(s: string)
    ensures ToLower(ToLower(s)) == ToLower(s)
  {
    var t := ToLower(s);
    assert forall i :: 0 <= i < |t| ==> ToLower(t)[i] == t[i];
  }

  /** A normalised address is its own normal form, so normalising is idempotent. */
  lemma NormalizeEmailIdempotent(value: string)
    ensures Normalized(NormalizeEmail(value))
  {
    var t := Trim(value);
    var l := ToLower(t);
    TrimOfTrimmed(l);
    ToLowerIdempotent(t);
  }

  /** `validatePassword`: the error for a password of fewer than 6 characters. */
  function ValidatePassword(password: string): (r: Option<string>)
    ensures r.None? <==> |password| >= MinPasswordLength
    ensures r.Some? ==> r.value == PasswordLengthError
  {
    if |password| < MinPasswordLength then Some(PasswordLengthError) else None
  }

  /** `toSession`. */
  function ToSession(user: AuthUser, loggedInAt: string): AuthSession {
    AuthSession(user.id, user.name, user.email, loggedInAt)
  }

  /** `users.find((user) => user.email === email)`: the first user with that address. */
  function FindByEmail(users: seq<AuthUser>, email: string): (r: Option<AuthUser>)
    ensures r.None? <==> forall i :: 0 <= i < |users| ==> users[i].email != email
    ensures r.Some? ==> r.value.email == email && r.value in users
  {
    if users == [] then None
    else if users[0].email == email then Some(users[0])
    else FindByEmail(users[1..], email)
  }

  /** When several users share an address, the lookup finds the earliest of them. */
  lemma {:induction false} FindByEmailIsFirst(users: seq<AuthUser>, email: string, k: nat)
    requires k < |users| && users[k].email == email
    requires forall i :: 0 <= i < k ==> users[i].email != email
    ensures FindByEmail(users, email) == Some(users[k])
  {
    if k > 0 {
      assert users[0].email != email;
      assert users[1..][k - 1] == users[k];
      FindByEmailIsFirst(users[1..], email, k - 1);
    }
  }

  predicate UniqueEmails(users: seq<AuthUser>) {
    forall i, j :: 0 <= i < j < |users| ==> users[i].email != users[j].email
  }

  /** The user a successful signup creates: its address is already in normal form, and the
      name and password carry no surrounding whitespace. */
  function NewUser(p: SignupPayload, freshId: string, createdAt: string): (r: AuthUser)
    ensures Normalized(r.email)
    ensures r.name == [] || (!IsSpace(r.name[0]) && !IsSpace(r.name[|r.name| - 1]))
    ensures r.password == [] || (!IsSpace(r.password[0]) && !IsSpace(r.password[|r.password| - 1]))
  {
    NormalizeEmailIdempotent(p.email);
    AuthUser(freshId, Trim(p.name), NormalizeEmail(p.email), Trim(p.password), createdAt)
  }

  /** Why signup refuses, if it does, with the checks in the order the code makes them. */
  function SignupError(users: seq<AuthUser>, p: SignupPayload): (r: Option<string>)
    ensures Trim(p.name) == "" || NormalizeEmail(p.email) == "" || Trim(p.password) == "" ==>
      r == Some(RequiredFieldsError)
    ensures Trim(p.name) != "" && NormalizeEmail(p.email) != "" && Trim(p.password) != "" ==>
      && (|Trim(p.password)| < MinPasswordLength ==> r == Some(PasswordLengthError))
      && ((|Trim(p.password)| >= MinPasswordLength && FindByEmail(users, NormalizeEmail(p.email)).Some?) ==>
            r == Some(DuplicateEmailError))
    ensures r.None? <==>
      && Trim(p.name) != "" && NormalizeEmail(p.email) != "" && |Trim(p.password)| >= MinPasswordLength
      && FindByEmail(users, NormalizeEmail(p.email)).None?
  {
    var name := Trim(p.name);
    var email := NormalizeEmail(p.email);
    var password := Trim(p.password);
    if name == "" || email == "" || password == "" then Some(RequiredFieldsError)
    else if ValidatePassword(password).Some? then ValidatePassword(password)
    else if FindByEmail(users, email).Some? then Some(DuplicateEmailError)
    else None
  }

  lemma PrependFreshEmail(u: AuthUser, users: seq<AuthUser>)
    requires UniqueEmails(users)
    requires forall k :: 0 <= k < |users| ==> users[k].email != u.email
    ensures UniqueEmails([u] + users)
  {
    var all := [u] + users;
    forall i, j | 0 <= i < j < |all|
      ensures all[i].email != all[j].email
    {
      assert all[j] == users[j - 1];
      if i > 0 {
        assert all[i] == users[i - 1];
      }
    }
  }

  /** A successful signup keeps the registry's addresses distinct and normalised. */
  lemma SignupKeepsEmailsUnique(users: seq<AuthUser>, p: SignupPayload, freshId: string, createdAt: string)
    requires UniqueEmails(users) && SignupError(users, p).None?
    ensures UniqueEmails([NewUser(p, freshId, createdAt)] + users)
    ensures Normalized(NewUser(p, freshId, createdAt).email)
  {
    var u := NewUser(p, freshId, createdAt);
    assert FindByEmail(users, u.email).None?;
    PrependFreshEmail(u, users);
  }

  /** Why login refuses, if it does, or the user it logs in. */
  function LoginResult(users: seq<AuthUser>, p: LoginPayload): (r: Result<AuthUser, string>)
    ensures NormalizeEmail(p.email) == "" || Trim(p.password) == "" ==> r == Err(LoginFieldsError)
    ensures NormalizeEmail(p.email) != "" && Trim(p.password) != "" ==>
      && (FindByEmail(users, NormalizeEmail(p.email)).None? ==> r == Err(UnknownEmailError))
      && (FindByEmail(users, NormalizeEmail(p.email)).Some? ==>
            var u := FindByEmail(users, NormalizeEmail(p.email)).value;
            r == if u.password == Trim(p.password) then Ok(u) else Err(WrongPasswordError))
    ensures r.Ok? ==> r.value in users && r.value.email == NormalizeEmail(p.email) && r.value.password == Trim(p.password)
  {
    var email := NormalizeEmail(p.email);
    var password := Trim(p.password);
    if email == "" || password == "" then Err(LoginFieldsError)
    else
      match FindByEmail(users, email)
      case None => Err(UnknownEmailError)
      case Some(user) => if user.password != password then Err(WrongPasswordError) else Ok(user)
  }

  /** Logging in with the credentials just signed up with finds the new user. */
  lemma LoginAfterSignup(users: seq<AuthUser>, p: SignupPayload, freshId: string, createdAt: string)
    requires SignupError(users, p).None?
    ensures LoginResult([NewUser(p, freshId, createdAt)] + users, LoginPayload(p.email, p.password))
         == Ok(NewUser(p, freshId, createdAt))
  {
    assert Trim(p.password) != "";
  }

  /** Login sees an address the way signup stored it: padding and case do not matter. */
  lemma LoginIgnoresEmailForm(users: seq<AuthUser>, email: string, password: string)
    ensures LoginResult(users, LoginPayload(NormalizeEmail(email), password)) == LoginResult(users, LoginPayload(email, password))
  {
    NormalizeEmailIdempotent(email);
  }

  /** `signupWithCredentials`: check the payload, then prepend the new user to the stored list
      and return its session. */
  method SignupWithCredentials(storage: Storage, p: SignupPayload, freshId: string, now: string)
    returns (r: Result<AuthSession, Thrown>)
    modifies storage
    ensures r.Ok? <==> SignupError(LoadUsers(old(storage.items), AuthUsersKey), p).None?
    ensures var users := LoadUsers(old(storage.items), AuthUsersKey);
      SignupError(users, p).Some? ==> r == Err(ErrorValue(SignupError(users, p).value)) && storage.items == old(storage.items)
    ensures var users := LoadUsers(old(storage.items), AuthUsersKey); var u := NewUser(p, freshId, now);
      SignupError(users, p).None? ==>
        && storage.items == old(storage.items)[AuthUsersKey := Users([u] + users)]
        && r == Ok(AuthSession(freshId, Trim(p.name), NormalizeEmail(p.email), now))
  {
    var name := Trim(p.name);
    var email := NormalizeEmail(p.email);
    var password := Trim(p.password);
    if name == "" || email == "" || password == "" {
      return Err(ErrorValue(RequiredFieldsError));
    }
    var invalid := ValidatePassword(password);
    if invalid.Some? {
      return Err(ErrorValue(invalid.value));
    }
    var users := LoadUsers(storage.items, AuthUsersKey);
    var existing := FindByEmail(users, email);
    if existing.Some? {
      return Err(ErrorValue(DuplicateEmailError));
    }
    var newUser := NewUser(p, freshId, now);
    storage.items := storage.items[AuthUsersKey := Users([newUser] + users)];
    r := Ok(ToSession(newUser, now));
  }

  /** `loginWithCredentials`: read the stored users and return the matching user's session;
      the registry is never written. */
  method LoginWithCredentials(storage: Storage, p: LoginPayload, now: string) returns (r: Result<AuthSession, Thrown>)
    ensures var res := LoginResult(LoadUsers(storage.items, AuthUsersKey), p);
      && (res.Err? ==> r == Err(ErrorValue(res.error)))
      && (res.Ok? ==> r == Ok(ToSession(res.value, now)))
  {
    var email := NormalizeEmail(p.email);
    var password := Trim(p.password);
    if email == "" || password == "" {
      return Err(ErrorValue(LoginFieldsError));
    }
    var users := LoadUsers(storage.items, AuthUsersKey);
    var user := FindByEmail(users, email);
    if user.None? {
      return Err(ErrorValue(UnknownEmailError));
    }
    if user.value.password != password {
      return Err(ErrorValue(WrongPasswordError));
    }
    r := Ok(ToSession(user.value, now));
  }
}
