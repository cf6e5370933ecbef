/**
 * The mock auth repository. Each request yields the sequence of results its
 * flow emits: `Loading`, then one verdict. The simulated network delay is
 * left out. Email validity is the platform's email pattern, which this model
 * takes as the parameter `isValidEmail`.
 */
module AuthRepository {
  import opened Wrappers
  import opened Text
  import opened Models

  /** Shortest password either check accepts. */
  const MinPasswordLength: nat := 6

  const InvalidCredentials: string := "Invalid email or password"
  const FirstNameRequired: string := "First name is required"
  const LastNameRequired: string := "Last name is required"
  const InvalidEmailFormat: string := "Invalid email format"
  const PasswordTooShort: string := "Password must be at least 6 characters"
  const PasswordsDoNotMatch: string := "Passwords do not match"

  /** Whether the email and password pass the mock login check. */
  predicate CredentialsAccepted(email: string, password: string, isValidEmail: string -> bool)
  {
    isValidEmail(email) && |password| >= MinPasswordLength
  }

  /** `login`: `Loading`, then `Success` for acceptable credentials and one fixed error otherwise. */
  function Login(request: LoginRequest, isValidEmail: string -> bool): (emitted: seq<AuthResult>)
    ensures |emitted| == 2 && emitted[0] == Loading && !emitted[1].Loading?
    ensures emitted[1] == Success <==> CredentialsAccepted(request.email, request.password, isValidEmail)
    ensures emitted[1] != Success ==> emitted[1] == Error(InvalidCredentials)
  {
    if isValidEmail(request.email) && |request.password| >= MinPasswordLength then [Loading, Success]
    else [Loading, Error(InvalidCredentials)]
  }

  /** The sign-up checks in order; the first that fails decides the error. */
  function SignUpVerdict(request: SignUpRequest, isValidEmail: string -> bool): (verdict: AuthResult)
    ensures verdict.Success? <==> SignUpValid(request, isValidEmail)
    ensures !verdict.Loading?
  {
    if IsBlank(request.firstName) then Error(FirstNameRequired)
    else if IsBlank(request.lastName) then Error(LastNameRequired)
    else if !isValidEmail(request.email) then Error(InvalidEmailFormat)
    else if |request.password| < MinPasswordLength then Error(PasswordTooShort)
    else if request.password != request.confirmPassword then Error(PasswordsDoNotMatch)
    else Success
  }

  /** Whether a sign-up request passes all five checks. */
  predicate SignUpValid(request: SignUpRequest, isValidEmail: string -> bool)
  {
    && !IsBlank(request.firstName)
    && !IsBlank(request.lastName)
    && isValidEmail(request.email)
    && |request.password| >= MinPasswordLength
    && request.password == request.confirmPassword
  }

  /**
   * `signUp`: `Loading`, then `Success` exactly when all five checks pass;
   * otherwise the message of the first failing check, in the order first
   * name, last name, email, password length, password confirmation.
   */
  function SignUp(request: SignUpRequest, isValidEmail: string -> bool): (emitted: seq<AuthResult>)
    ensures |emitted| == 2 && emitted[0] == Loading && !emitted[1].Loading?
    ensures emitted[1] == Success <==> SignUpValid(request, isValidEmail)
    ensures IsBlank(request.firstName) ==> emitted[1] == Error(FirstNameRequired)
    ensures !IsBlank(request.firstName) && IsBlank(request.lastName) ==> emitted[1] == Error(LastNameRequired)
    ensures (!IsBlank(request.firstName) && !IsBlank(request.lastName) && !isValidEmail(request.email))
      ==> emitted[1] == Error(InvalidEmailFormat)
    ensures (!IsBlank(request.firstName) && !IsBlank(request.lastName) && isValidEmail(request.email)
             && |request.password| < MinPasswordLength)
      ==> emitted[1] == Error(PasswordTooShort)
  {
    [Loading, SignUpVerdict(request, isValidEmail)]
  }

  /** The mismatch message is reported exactly when it is the only failing check. */
  lemma MismatchReportedLast(request: SignUpRequest, isValidEmail: string -> bool)
    ensures SignUp(request, isValidEmail)[1] == Error(PasswordsDoNotMatch) <==>
      && !IsBlank(request.firstName) && !IsBlank(request.lastName)
      && isValidEmail(request.email) && |request.password| >= MinPasswordLength
      && request.password != request.confirmPassword
  {
  }

  /** Credentials that sign-up accepts are credentials that login accepts. */
  lemma SignUpAcceptedLoginAccepts(request: SignUpRequest, isValidEmail: string -> bool)
    requires SignUp(request, isValidEmail)[1] == Success
    ensures Login(LoginRequest(request.email, request.password), isValidEmail)[1] == Success
  {
  }

  /** `getCurrentUser`: the mock keeps no session, so there is never a current user. */
  function GetCurrentUser(): (user: Option<User>)
    ensures user.None?
  {
    None
  }
}
