/**
 * Login and registration of the CityFix backend.  The user lookup, bcrypt's
 * `compare` and `hash`, the user store's `create` and the JWT signer are
 * parameters: the model fixes what they are called with and how their
 * answers become responses and errors.
 */
module AuthService {
  import opened Wrappers
  import opened ReportEntity

  /** A user row without its password column. */
  datatype SafeUser = SafeUser(id: string, name: string, email: string, role: UserRole)

  /** The JWT payload. */
  datatype Payload = Payload(email: string, sub: string, role: UserRole)

  /** The user part of a login or registration response. */
  datatype AuthUser = AuthUser(id: string, name: string, email: string, role: UserRole)

  datatype AuthResponse = AuthResponse(accessToken: string, user: AuthUser)

  datatype AuthError = Unauthorized(message: string)

  datatype LoginDto = LoginDto(email: string, password: string)

  datatype RegisterDto = RegisterDto(name: string, email: string, password: string)

  /** What registration hands to the user store. */
  datatype NewUser = NewUser(name: string, email: string, password: string)

  /** A value thrown inside `register`'s try block; `code` is its `code` property, when it has one. */
  datatype Thrown = Thrown(code: Option<string>)

  const SaltRounds: nat := 10
  const UniqueViolation: string := "23505"
  const InvalidCredentials: string := "Invalid credentials"
  const EmailTaken: string := "Email already exists"
  const RegistrationFailed: string := "Registration failed"

  /** `const { password, ...result } = user`. */
  function WithoutPassword(u: User): SafeUser {
    SafeUser(u.id, u.name, u.email, u.role)
  }

  /** `validateUser`: the user without password when one is found and the password matches its hash, else null. */
  function ValidateUser(found: Option<User>, password: string, compare: (string, string) -> bool): (r: Option<SafeUser>)
    ensures r.Some? <==> found.Some? && compare(password, found.value.password)
    ensures r.Some? ==> r.value == SafeUser(found.value.id, found.value.name, found.value.email, found.value.role)
  {
    if found.Some? && compare(password, found.value.password) then Some(WithoutPassword(found.value)) else None
  }

  function TokenPayload(email: string, id: string, role: UserRole): Payload {
    Payload(email, id, role)
  }

  /** `login`: Unauthorized('Invalid credentials') unless the credentials check out, else a token and the user. */
  function Login(dto: LoginDto, found: Option<User>, compare: (string, string) -> bool, sign: Payload -> string)
    : (r: Result<AuthResponse, AuthError>)
    ensures r.Failure? <==> ValidateUser(found, dto.password, compare).None?
    ensures r.Failure? ==> r.error == Unauthorized(InvalidCredentials)
    ensures r.Success? ==>
      var u := found.value;
      && r.value.accessToken == sign(Payload(u.email, u.id, u.role))
      && r.value.user == AuthUser(u.id, u.name, u.email, u.role)
  {
    var user := ValidateUser(found, dto.password, compare);
    if user.None? then Failure(Unauthorized(InvalidCredentials))
    else
      var u := user.value;
      Success(AuthResponse(sign(TokenPayload(u.email, u.id, u.role)), AuthUser(u.id, u.name, u.email, u.role)))
  }

  /** The record `register` stores: the body, with its password replaced by the hash. */
  function RegistrationRecord(dto: RegisterDto, hashed: string): (u: NewUser)
    ensures u.password == hashed
    ensures u.(password := dto.password) == NewUser(dto.name, dto.email, dto.password)
  {
    NewUser(dto.name, dto.email, hashed)
  }

  /** The error a failed registration is reported as. */
  function RegistrationError(e: Thrown): (r: AuthError)
    ensures e.code == Some(UniqueViolation) <==> r == Unauthorized(EmailTaken)
    ensures e.code != Some(UniqueViolation) <==> r == Unauthorized(RegistrationFailed)
  {
    if e.code == Some(UniqueViolation) then Unauthorized(EmailTaken) else Unauthorized(RegistrationFailed)
  }

  /** What `register` answers, and the user the store holds afterwards, if the store was reached and succeeded. */
  datatype RegisterOutcome = RegisterOutcome(response: Result<AuthResponse, AuthError>, stored: Option<User>)

  /**
   * `register`: hash the password at cost 10, store the record, then sign
   * like `login`.  One try block covers all three steps, so whichever of them
   * throws first is mapped by RegistrationError, and a signing failure comes
   * after the user is already stored.
   */
  function Register(dto: RegisterDto, hash: (string, nat) -> Result<string, Thrown>,
                    create: NewUser -> Result<User, Thrown>, sign: Payload -> Result<string, Thrown>)
    : (out: RegisterOutcome)
    ensures var hashed := hash(dto.password, SaltRounds);
      && (hashed.Failure? ==> out == RegisterOutcome(Failure(RegistrationError(hashed.error)), None))
      && (hashed.Success? ==>
            var stored := create(RegistrationRecord(dto, hashed.value));
            && (stored.Failure? ==> out == RegisterOutcome(Failure(RegistrationError(stored.error)), None))
            && (stored.Success? ==>
                  var u := stored.value;
                  var token := sign(Payload(u.email, u.id, u.role));
                  && out.stored == Some(u)
                  && (token.Failure? ==> out.response == Failure(RegistrationError(token.error)))
                  && (token.Success? ==>
                        out.response == Success(AuthResponse(token.value, AuthUser(u.id, u.name, u.email, u.role))))))
  {
    match hash(dto.password, SaltRounds)
    case Failure(e) => RegisterOutcome(Failure(RegistrationError(e)), None)
    case Success(hashed) =>
      match create(RegistrationRecord(dto, hashed))
      case Failure(e) => RegisterOutcome(Failure(RegistrationError(e)), None)
      case Success(u) =>
        match sign(TokenPayload(u.email, u.id, u.role))
        case Failure(e) => RegisterOutcome(Failure(RegistrationError(e)), Some(u))
        case Success(token) => RegisterOutcome(Success(AuthResponse(token, AuthUser(u.id, u.name, u.email, u.role))), Some(u))
  }

  /**
   * Registration succeeds exactly when hashing, storing and signing all do;
   * a failed answer can still leave the user stored, exactly when only
   * signing failed.
   */
  lemma RegisterSucceedsExactly(dto: RegisterDto, hash: (string, nat) -> Result<string, Thrown>,
                                create: NewUser -> Result<User, Thrown>, sign: Payload -> Result<string, Thrown>)
    ensures var out := Register(dto, hash, create, sign);
      var hashed := hash(dto.password, SaltRounds);
      && (out.response.Success? <==>
            hashed.Success? && create(RegistrationRecord(dto, hashed.value)).Success?
            && sign(TokenPayload(create(RegistrationRecord(dto, hashed.value)).value.email,
                                 create(RegistrationRecord(dto, hashed.value)).value.id,
                                 create(RegistrationRecord(dto, hashed.value)).value.role)).Success?)
      && (out.response.Failure? && out.stored.Some? <==>
            hashed.Success? && create(RegistrationRecord(dto, hashed.value)).Success?
            && sign(TokenPayload(create(RegistrationRecord(dto, hashed.value)).value.email,
                                 create(RegistrationRecord(dto, hashed.value)).value.id,
                                 create(RegistrationRecord(dto, hashed.value)).value.role)).Failure?)
  {
  }

  /** A consequence of Login's ensures: no response depends on the user's password hash, beyond whether it matched. */
  lemma LoginHidesPassword(dto: LoginDto, u: User, h1: string, h2: string,
                           compare: (string, string) -> bool, sign: Payload -> string)
    requires compare(dto.password, h1) && compare(dto.password, h2)
    ensures Login(dto, Some(u.(password := h1)), compare, sign) == Login(dto, Some(u.(password := h2)), compare, sign)
  {
  }

  /** A consequence of the ensures of Login and Register: both sign the same payload for the same user. */
  lemma SamePayload(dto: LoginDto, reg: RegisterDto, u: User, compare: (string, string) -> bool,
                    hash: (string, nat) -> Result<string, Thrown>, create: NewUser -> Result<User, Thrown>,
                    sign: Payload -> Result<string, Thrown>, token: string)
    requires compare(dto.password, u.password)
    requires hash(reg.password, SaltRounds).Success?
    requires create(RegistrationRecord(reg, hash(reg.password, SaltRounds).value)) == Success(u)
    requires sign(Payload(u.email, u.id, u.role)) == Success(token)
    ensures Login(dto, Some(u), compare, p => token) == Register(reg, hash, create, sign).response
  {
  }
}
