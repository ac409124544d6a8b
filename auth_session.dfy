/**
  The `useAuthSession` hook: the current session, the busy flag and the last error, with the
  session mirrored to browser storage under the auth-session key.
*/
module AuthSessionHook {
  import opened Wrappers
  import opened AuthModel
  import opened StorageKeys
  import opened LocalStorage
  import opened AuthService

  const LoginFallbackError: string := "Unable to log in."
  const SignupFallbackError: string := "Unable to sign up."

  class AuthSessionState {
    const storage: Storage
    var session: Option<AuthSession>
    var isAuthenticating: bool
    var errorMessage: string

    /** The stored session, if any; not busy; no error. */
    constructor (storage: Storage)
      ensures this.storage == storage
      ensures session == LoadSession(storage.items, AuthSessionKey)
      ensures !isAuthenticating && errorMessage == ""
    {
      this.storage := storage;
      session := LoadSession(storage.items, AuthSessionKey);
      isAuthenticating := false;
      errorMessage := "";
    }

    /** `isAuthenticated`. */
    function IsAuthenticated(): bool
      reads this
    {
      session.Some?
    }

    /** `login`: on success install and store the session; on failure keep the session and
        record the error's message. */
    method Login(email: string, password: string, now: string) returns (ok: bool)
      modifies this, storage
      ensures !isAuthenticating
      ensures var res := LoginResult(LoadUsers(old(storage.items), AuthUsersKey), LoginPayload(email, password));
        && (ok <==> res.Ok?)
        && (res.Ok? ==>
              && session == Some(ToSession(res.value, now)) && IsAuthenticated() && errorMessage == ""
              && storage.items == old(storage.items)[AuthSessionKey := SessionSlot(session)])
        && (res.Err? ==>
              && session == old(session) && errorMessage == res.error && storage.items == old(storage.items))
    {
      ghost var res := LoginResult(LoadUsers(storage.items, AuthUsersKey), LoginPayload(email, password));
      isAuthenticating := true;
      errorMessage := "";
      var r := LoginWithCredentials(storage, LoginPayload(email, password), now);
      if r.Ok? {
        assert res.Ok?;
        session := Some(r.value);
        storage.items := storage.items[AuthSessionKey := SessionSlot(Some(r.value))];
        ok := true;
      } else {
        assert res.Err? && r.error == ErrorValue(res.error);
        errorMessage := MessageOr(r.error, LoginFallbackError);
        ok := false;
      }
      isAuthenticating := false;
    }

    /** `signup`: register, then install and store the new session; on failure keep the
        session and record the error's message. */
    method Signup(name: string, email: string, password: string, freshId: string, now: string) returns (ok: bool)
      modifies this, storage
      ensures !isAuthenticating
      ensures var users := LoadUsers(old(storage.items), AuthUsersKey); var p := SignupPayload(name, email, password);
        && (ok <==> SignupError(users, p).None?)
        && (SignupError(users, p).None? ==>
              var u := NewUser(p, freshId, now);
              && session == Some(ToSession(u, now)) && IsAuthenticated() && errorMessage == ""
              && storage.items == old(storage.items)[AuthUsersKey := Users([u] + users)][AuthSessionKey := SessionSlot(session)])
        && (SignupError(users, p).Some? ==>
              && session == old(session) && errorMessage == SignupError(users, p).value
              && storage.items == old(storage.items))
    {
      ghost var items0 := storage.items;
      ghost var users := LoadUsers(items0, AuthUsersKey);
      var p := SignupPayload(name, email, password);
      ghost var failure := SignupError(users, p);
      isAuthenticating := true;
      errorMessage := "";
      assert this as object != storage as object;
      var r := SignupWithCredentials(storage, p, freshId, now);
      if r.Ok? {
        assert failure.None?;
        ghost var u := NewUser(p, freshId, now);
        assert r.value == ToSession(u, now);
        session := Some(r.value);
        storage.items := storage.items[AuthSessionKey := SessionSlot(Some(r.value))];
        assert storage.items == items0[AuthUsersKey := Users([u] + users)][AuthSessionKey := SessionSlot(session)];
        ok := true;
      } else {
        assert failure.Some? && r.error == ErrorValue(failure.value);
        errorMessage := MessageOr(r.error, SignupFallbackError);
        ok := false;
      }
      isAuthenticating := false;
    }

    /** `logout`: no session, and none stored. */
    method Logout()
      modifies this, storage
      ensures session.None? && !IsAuthenticated()
      ensures storage.items == old(storage.items)[AuthSessionKey := SessionSlot(None)]
      ensures isAuthenticating == old(isAuthenticating) && errorMessage == old(errorMessage)
    {
      session := None;
      storage.items := storage.items[AuthSessionKey := SessionSlot(None)];
    }
  }
}
