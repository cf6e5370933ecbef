/**
 * The auth view model: seven text inputs, the logged-in flag and the shown
 * `AuthState`. Every operation is one state transition; a repository flow is
 * consumed by applying each emitted result in turn, and `onSuccess` is
 * represented by the number of times it would be invoked.
 */
module AuthViewModel {
  import opened Wrappers
  import opened Seqs
  import opened Text
  import opened Models
  import AuthRepository

  datatype InputField =
    | LoginEmail | LoginPassword
    | SignUpFirstName | SignUpLastName | SignUpEmail | SignUpPassword | SignUpConfirmPassword

  datatype ViewModel = ViewModel(
    isLoggedIn: bool,
    authState: AuthState,
    loginEmail: string,
    loginPassword: string,
    signUpFirstName: string,
    signUpLastName: string,
    signUpEmail: string,
    signUpPassword: string,
    signUpConfirmPassword: string)

  /** The current text of an input. */
  function Input(vm: ViewModel, field: InputField): string
  {
    match field
    case LoginEmail => vm.loginEmail
    case LoginPassword => vm.loginPassword
    case SignUpFirstName => vm.signUpFirstName
    case SignUpLastName => vm.signUpLastName
    case SignUpEmail => vm.signUpEmail
    case SignUpPassword => vm.signUpPassword
    case SignUpConfirmPassword => vm.signUpConfirmPassword
  }

  /** The field initialisers: signed out, default auth state, every input empty. */
  function Fresh(): ViewModel
  {
    ViewModel(false, DefaultAuthState(), "", "", "", "", "", "", "")
  }

  /** `checkAuthStatus`: authenticated and logged in exactly when there is a current user, who is stored. */
  function CheckAuthStatus(vm: ViewModel, user: Option<User>): (r: ViewModel)
    ensures r.authState.isAuthenticated == user.Some? && r.isLoggedIn == user.Some?
    ensures r.authState.user == user
    ensures r.authState.isLoading == vm.authState.isLoading && r.authState.error == vm.authState.error
    ensures forall f :: Input(r, f) == Input(vm, f)
  {
    vm.(authState := vm.authState.(isAuthenticated := user.Some?, user := user), isLoggedIn := user.Some?)
  }

  /** The view model as constructed: the initialisers, then a status check against the repository. */
  function Initial(): ViewModel
  {
    CheckAuthStatus(Fresh(), AuthRepository.GetCurrentUser())
  }

  /** `clearError`: drops a pending error; a state without one is returned unchanged. */
  function ClearError(state: AuthState): (r: AuthState)
    ensures r.error.None?
    ensures state.error.None? ==> r == state
    ensures r.isLoading == state.isLoading && r.isAuthenticated == state.isAuthenticated && r.user == state.user
  {
    if state.error.Some? then state.(error := None) else state
  }

  /** The seven `update*` setters: one input takes the new text and any pending error is cleared. */
  function Update(vm: ViewModel, field: InputField, value: string): (r: ViewModel)
    ensures Input(r, field) == value
    ensures forall g :: g != field ==> Input(r, g) == Input(vm, g)
    ensures r.authState == ClearError(vm.authState) && r.isLoggedIn == vm.isLoggedIn
  {
    var vm' := match field
      case LoginEmail => vm.(loginEmail := value)
      case LoginPassword => vm.(loginPassword := value)
      case SignUpFirstName => vm.(signUpFirstName := value)
      case SignUpLastName => vm.(signUpLastName := value)
      case SignUpEmail => vm.(signUpEmail := value)
      case SignUpPassword => vm.(signUpPassword := value)
      case SignUpConfirmPassword => vm.(signUpConfirmPassword := value);
    vm'.(authState := ClearError(vm.authState))
  }

  /** Whether every input keeps its text from `vm` to `r`. */
  predicate InputsUnchanged(vm: ViewModel, r: ViewModel)
  {
    forall f :: Input(r, f) == Input(vm, f)
  }

  /**
   * Handling of one emitted result; the flag says whether `onSuccess` runs.
   * Loading shows progress and drops the error; Success ends loading and
   * marks the user authenticated and logged in; Error ends loading and shows
   * the message.
   */
  function Apply(vm: ViewModel, result: AuthResult): (r: (ViewModel, bool))
    ensures InputsUnchanged(vm, r.0) && r.0.authState.user == vm.authState.user
    ensures r.1 <==> result.Success?
    ensures result.Loading? ==>
      && r.0.authState.isLoading && r.0.authState.error.None?
      && r.0.authState.isAuthenticated == vm.authState.isAuthenticated && r.0.isLoggedIn == vm.isLoggedIn
    ensures result.Success? ==>
      && !r.0.authState.isLoading && r.0.authState.isAuthenticated && r.0.authState.error.None? && r.0.isLoggedIn
    ensures result.Error? ==>
      && !r.0.authState.isLoading && r.0.authState.error == Some(result.message)
      && r.0.authState.isAuthenticated == vm.authState.isAuthenticated && r.0.isLoggedIn == vm.isLoggedIn
  {
    match result
    case Loading => (vm.(authState := vm.authState.(isLoading := true, error := None)), false)
    case Success =>
      (vm.(authState := vm.authState.(isLoading := false, isAuthenticated := true, error := None), isLoggedIn := true), true)
    case Error(message) => (vm.(authState := vm.authState.(isLoading := false, error := Some(message))), false)
  }

  predicate IsSuccess(result: AuthResult)
  {
    result.Success?
  }

  /** Collecting a flow: every result applied in order; counts the `onSuccess` calls. */
  function Collect(vm: ViewModel, results: seq<AuthResult>): (r: (ViewModel, nat))
    ensures InputsUnchanged(vm, r.0) && r.0.authState.user == vm.authState.user
    ensures r.1 == CountWhere(results, IsSuccess)
    decreases |results|
  {
    if |results| == 0 then (vm, 0)
    else
      var (vm1, fired) := Apply(vm, results[0]);
      var (vm2, n) := Collect(vm1, results[1..]);
      (vm2, n + if fired then 1 else 0)
  }

  /** Collecting a two-result flow applies the first result, then the second. */
  lemma CollectPair(vm: ViewModel, emitted: seq<AuthResult>)
    requires |emitted| == 2
    ensures var first := Apply(vm, emitted[0]);
      var second := Apply(first.0, emitted[1]);
      Collect(vm, emitted) == (second.0, (if first.1 then 1 else 0) + (if second.1 then 1 else 0))
  {
    var first := Apply(vm, emitted[0]);
    var second := Apply(first.0, emitted[1..][0]);
    assert Collect(second.0, emitted[1..][1..]) == (second.0, 0);
    assert Collect(first.0, emitted[1..]) == (second.0, if second.1 then 1 else 0);
  }

  /** Collecting `Loading` followed by a verdict leaves the state the verdict alone decides. */
  lemma CollectVerdict(vm: ViewModel, verdict: AuthResult)
    requires !verdict.Loading?
    ensures var r := Collect(vm, [Loading, verdict]);
      && r.1 == (if verdict.Success? then 1 else 0)
      && !r.0.authState.isLoading
      && r.0.authState.isAuthenticated == (verdict.Success? || vm.authState.isAuthenticated)
      && r.0.isLoggedIn == (verdict.Success? || vm.isLoggedIn)
      && r.0.authState.error == (if verdict.Success? then None else Some(verdict.message))
  {
    CollectPair(vm, [Loading, verdict]);
  }

  /** The login request built from the inputs: the email trimmed, the password verbatim. */
  function LoginRequestOf(vm: ViewModel): LoginRequest
  {
    LoginRequest(email := Trim(vm.loginEmail), password := vm.loginPassword)
  }

  /** The sign-up request built from the inputs: names and email trimmed, both passwords verbatim. */
  function SignUpRequestOf(vm: ViewModel): SignUpRequest
  {
    SignUpRequest(
      firstName := Trim(vm.signUpFirstName),
      lastName := Trim(vm.signUpLastName),
      email := Trim(vm.signUpEmail),
      password := vm.signUpPassword,
      confirmPassword := vm.signUpConfirmPassword)
  }

  /** Whether `login` accepts the inputs: the repository check on the trimmed email and the untrimmed password. */
  predicate LoginAccepted(vm: ViewModel, isValidEmail: string -> bool)
  {
    AuthRepository.CredentialsAccepted(Trim(vm.loginEmail), vm.loginPassword, isValidEmail)
  }

  /**
   * `login`: on acceptance the user becomes authenticated and logged in and
   * `onSuccess` runs once; otherwise the fixed error is shown and the
   * authenticated and logged-in flags keep their values. Loading has ended
   * either way.
   */
  function Login(vm: ViewModel, isValidEmail: string -> bool): (r: (ViewModel, nat))
    ensures r.1 == (if LoginAccepted(vm, isValidEmail) then 1 else 0)
    ensures !r.0.authState.isLoading
    ensures r.0.authState.isAuthenticated == (LoginAccepted(vm, isValidEmail) || vm.authState.isAuthenticated)
    ensures r.0.isLoggedIn == (LoginAccepted(vm, isValidEmail) || vm.isLoggedIn)
    ensures LoginAccepted(vm, isValidEmail) ==> r.0.authState.error.None?
    ensures !LoginAccepted(vm, isValidEmail) ==> r.0.authState.error == Some(AuthRepository.InvalidCredentials)
    ensures r.0.authState.user == vm.authState.user && InputsUnchanged(vm, r.0)
  {
    var emitted := AuthRepository.Login(LoginRequestOf(vm), isValidEmail);
    CollectPair(vm, emitted);
    Collect(vm, emitted)
  }

  /** Whether `signUp` accepts the inputs: all five checks pass on the trimmed names and email and the untrimmed passwords. */
  predicate SignUpAccepted(vm: ViewModel, isValidEmail: string -> bool)
  {
    AuthRepository.SignUpValid(SignUpRequestOf(vm), isValidEmail)
  }

  /**
   * `signUp`: success authenticates, logs in and runs `onSuccess` once; a
   * failure shows the first failing check's message and keeps the
   * authenticated and logged-in flags.
   */
  function SignUp(vm: ViewModel, isValidEmail: string -> bool): (r: (ViewModel, nat))
    ensures r.1 == (if SignUpAccepted(vm, isValidEmail) then 1 else 0)
    ensures !r.0.authState.isLoading
    ensures r.0.authState.isAuthenticated == (SignUpAccepted(vm, isValidEmail) || vm.authState.isAuthenticated)
    ensures r.0.isLoggedIn == (SignUpAccepted(vm, isValidEmail) || vm.isLoggedIn)
    ensures SignUpAccepted(vm, isValidEmail) ==> r.0.authState.error.None?
    ensures !SignUpAccepted(vm, isValidEmail) ==>
      r.0.authState.error == Some(AuthRepository.SignUpVerdict(SignUpRequestOf(vm), isValidEmail).message)
    ensures r.0.authState.user == vm.authState.user && InputsUnchanged(vm, r.0)
  {
    var request := SignUpRequestOf(vm);
    var verdict := AuthRepository.SignUpVerdict(request, isValidEmail);
    CollectVerdict(vm, verdict);
    Collect(vm, AuthRepository.SignUp(request, isValidEmail))
  }

  /** `clearAllFields`: every input emptied, nothing else touched. */
  function ClearAllFields(vm: ViewModel): (r: ViewModel)
    ensures forall f :: Input(r, f) == ""
    ensures r.authState == vm.authState && r.isLoggedIn == vm.isLoggedIn
  {
    vm.(loginEmail := "", loginPassword := "",
        signUpFirstName := "", signUpLastName := "", signUpEmail := "",
        signUpPassword := "", signUpConfirmPassword := "")
  }

  /** `logout`: the default auth state, logged out, every input empty. */
  function Logout(vm: ViewModel): (r: ViewModel)
    ensures r.authState == DefaultAuthState() && !r.isLoggedIn
    ensures forall f :: Input(r, f) == ""
  {
    ClearAllFields(vm.(authState := DefaultAuthState(), isLoggedIn := false))
  }

  /** A freshly constructed view model is signed out with empty inputs, since the repository has no current user. */
  lemma InitialIsSignedOut()
    ensures !Initial().isLoggedIn && Initial().authState == DefaultAuthState()
    ensures forall f :: Input(Initial(), f) == ""
  {
  }

  /** Logging out from any state returns the view model to the state it was constructed in. */
  lemma LogoutRestoresInitial(vm: ViewModel)
    ensures Logout(vm) == Initial()
  {
  }

  /** A sign-up fails on the first name exactly when the untrimmed input is blank. */
  lemma SignUpFirstNameCheck(vm: ViewModel, isValidEmail: string -> bool)
    ensures SignUp(vm, isValidEmail).0.authState.error == Some(AuthRepository.FirstNameRequired)
      <==> IsBlank(vm.signUpFirstName)
  {
    TrimKeepsBlankness(vm.signUpFirstName);
  }

  /** Setting an input twice keeps only the second value. */
  lemma UpdateOverwrites(vm: ViewModel, field: InputField, first: string, second: string)
    ensures Update(Update(vm, field, first), field, second) == Update(vm, field, second)
  {
  }
}
