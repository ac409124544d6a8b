/** The records of the local credential registry. */
module AuthModel {

  /** Who is logged in; kept in browser storage and trusted while present. */
  datatype AuthSession = AuthSession(userId: string, name: string, email: string, loggedInAt: string)

  /** A registered user, with the password stored as typed (trimmed). */
  datatype AuthUser = AuthUser(id: string, name: string, email: string, password: string, createdAt: string)

  datatype LoginPayload = LoginPayload(email: string, password: string)

  datatype SignupPayload = SignupPayload(name: string, email: string, password: string)
}
