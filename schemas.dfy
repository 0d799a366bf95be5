/**
 * Request and response shapes of the auth routes (src/api/modules/auth/schemas.py).
 * Email syntax (pydantic's EmailStr) is a foreign validator and is a parameter.
 */
module Schemas {
  import opened Wrappers
  import opened Models

  /** `password: str = Field(..., min_length=8)` on registration. */
  const PASSWORD_MIN_LENGTH: int := 8

  datatype RegisterRequest = RegisterRequest(name: Option<string>, email: string, password: string)
  datatype LoginRequest = LoginRequest(email: string, password: string)

  /** What the routes return about a user: no password verifier. */
  datatype UserResponse = UserResponse(id: int, name: Option<string>, email: string, createdAt: int)

  /** A JSON request body as received; a field may be missing. */
  datatype Body = Body(name: Option<string>, email: Option<string>, password: Option<string>)

  /** The field constraints of RegisterRequest that the handler relies on. */
  predicate ValidRegister(req: RegisterRequest) {
    NameFits(req.name) && |req.password| >= PASSWORD_MIN_LENGTH
  }

  /** RegisterRequest validation: email required and well formed, password of 8 or more characters, name absent or at most 150. */
  function ParseRegister(b: Body, isEmail: string -> bool): (r: Option<RegisterRequest>)
    ensures r.Some? <==>
      && b.email.Some? && isEmail(b.email.value)
      && b.password.Some? && |b.password.value| >= PASSWORD_MIN_LENGTH
      && (b.name.None? || |b.name.value| <= NAME_MAX_LENGTH)
    ensures r.Some? ==> ValidRegister(r.value)
    ensures r.Some? ==> r.value == RegisterRequest(b.name, b.email.value, b.password.value)
  {
    if b.email.None? || !isEmail(b.email.value) then None
    else if b.password.None? || |b.password.value| < PASSWORD_MIN_LENGTH then None
    else if !NameFits(b.name) then None
    else Some(RegisterRequest(b.name, b.email.value, b.password.value))
  }

  /** LoginRequest validation: email required and well formed, password required with no minimum; a name is ignored. */
  function ParseLogin(b: Body, isEmail: string -> bool): (r: Option<LoginRequest>)
    ensures r.Some? <==> b.email.Some? && isEmail(b.email.value) && b.password.Some?
    ensures r.Some? ==> r.value == LoginRequest(b.email.value, b.password.value)
  {
    if b.email.None? || !isEmail(b.email.value) || b.password.None? then None
    else Some(LoginRequest(b.email.value, b.password.value))
  }

  /** `UserResponse.model_validate(user)`. */
  function ToUserResponse(u: User): UserResponse {
    UserResponse(u.id, u.name, u.email, u.createdAt)
  }

  /** The response is the same whatever the stored password verifier: it never exposes it. */
  lemma ResponseHidesPasswordHash(u: User, otherHash: string)
    ensures ToUserResponse(u.(passwordHash := otherHash)) == ToUserResponse(u)
  {
  }

  /** A one-character password is accepted at login and refused at registration. */
  lemma ShortPasswordOnlyAtLogin(email: string, isEmail: string -> bool)
    requires isEmail(email)
    ensures ParseLogin(Body(None, Some(email), Some("x")), isEmail).Some?
    ensures ParseRegister(Body(None, Some(email), Some("x")), isEmail).None?
  {
  }
}
