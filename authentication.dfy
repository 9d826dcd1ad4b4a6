/** The sign-in / sign-up form: the credential pre-check, the attempt that raises
    the in-flight flag, calls the account service and always lowers the flag again,
    and the toggle between the two modes. */
module Authentication {
  import opened Types

  /** The service call an attempt makes. */
  datatype ServiceCall = Signup(email: string, password: string) | Login(email: string, password: string)

  /** How the service call ended. */
  datatype ServiceOutcome =
    | Resolved                      // the promise resolved
    | RejectedWithError(message: string) // it threw an `Error`
    | RejectedOther                 // it threw something that is not an `Error`

  /** The guard of `handleAuthenticate`: an attempt goes ahead only for a non-empty
      email containing `@`, a non-empty password of at least six characters, and no
      attempt already in flight. */
  predicate MayAttempt(email: string, password: string, isAuthenticating: bool)
    ensures MayAttempt(email, password, isAuthenticating) <==>
      '@' in email && |password| >= 6 && !isAuthenticating
  {
    !(email == "" || '@' !in email || password == "" || |password| < 6 || isAuthenticating)
  }

  /** The call the current mode makes. */
  function CallFor(isRegistration: bool, email: string, password: string): (c: ServiceCall)
    ensures c.Signup? <==> isRegistration
    ensures c.email == email && c.password == password
  {
    if isRegistration then Signup(email, password) else Login(email, password)
  }

  /** The error text an outcome leaves behind: the message of an `Error`, else none. */
  function ErrorAfter(outcome: ServiceOutcome): (e: Option<string>)
    ensures e.Some? <==> outcome.RejectedWithError?
    ensures e.Some? ==> e.value == outcome.message
  {
    match outcome
    case RejectedWithError(message) => Some(message)
    case _ => None
  }

  /** The form's component state. */
  class AuthenticationForm {
    var isRegistration: bool
    var email: string
    var password: string
    var isAuthenticating: bool
    var error: Option<string>

    constructor ()
      ensures !isRegistration && email == "" && password == ""
      ensures !isAuthenticating && error == None
    {
      isRegistration := false;
      email := "";
      password := "";
      isAuthenticating := false;
      error := None;
    }

    method SetEmail(value: string)
      modifies this
      ensures email == value
      ensures isRegistration == old(isRegistration) && password == old(password)
      ensures isAuthenticating == old(isAuthenticating) && error == old(error)
    {
      email := value;
    }

    method SetPassword(value: string)
      modifies this
      ensures password == value
      ensures isRegistration == old(isRegistration) && email == old(email)
      ensures isAuthenticating == old(isAuthenticating) && error == old(error)
    {
      password := value;
    }

    /** The "Sign up" / "Sign in" button: flips the mode and nothing else. */
    method ToggleRegistration()
      modifies this
      ensures isRegistration == !old(isRegistration)
      ensures email == old(email) && password == old(password)
      ensures isAuthenticating == old(isAuthenticating) && error == old(error)
    {
      isRegistration := !isRegistration;
    }

    /** `handleAuthenticate` up to the service call: a rejected attempt changes
        nothing; an accepted one raises the flag, clears the error and names the call. */
    method BeginAttempt() returns (call: Option<ServiceCall>)
      modifies this
      ensures call.Some? <==> old(MayAttempt(email, password, isAuthenticating))
      ensures call.Some? ==> call.value == CallFor(isRegistration, email, password)
      ensures call.Some? ==> isAuthenticating && error == None
      ensures call.None? ==> isAuthenticating == old(isAuthenticating) && error == old(error)
      ensures isRegistration == old(isRegistration) && email == old(email) && password == old(password)
    {
      if !MayAttempt(email, password, isAuthenticating) {
        return None;
      }
      isAuthenticating := true;
      error := None;
      call := Some(CallFor(isRegistration, email, password));
    }

    /** `handleAuthenticate` after the service call: success closes the modal, an
        `Error` stores its message, and the `finally` lowers the flag. */
    method FinishAttempt(outcome: ServiceOutcome) returns (closeModal: bool)
      requires isAuthenticating && error == None
      modifies this
      ensures closeModal <==> outcome == Resolved
      ensures error == ErrorAfter(outcome)
      ensures !isAuthenticating
      ensures isRegistration == old(isRegistration) && email == old(email) && password == old(password)
    {
      closeModal := outcome == Resolved;
      if outcome.RejectedWithError? {
        error := Some(outcome.message);
      }
      isAuthenticating := false;
    }

    /** The whole handler as one step; `outcome` is how the call ends, consulted only
        when a call is made. */
    method HandleAuthenticate(outcome: ServiceOutcome) returns (call: Option<ServiceCall>, closeModal: bool)
      modifies this
      ensures call.Some? <==> old(MayAttempt(email, password, isAuthenticating))
      ensures call.Some? ==> call.value == old(CallFor(isRegistration, email, password))
      ensures call.None? ==>
        !closeModal && isAuthenticating == old(isAuthenticating) && error == old(error)
      ensures call.Some? ==>
        !isAuthenticating && (closeModal <==> outcome == Resolved) && error == ErrorAfter(outcome)
      ensures isRegistration == old(isRegistration) && email == old(email) && password == old(password)
    {
      closeModal := false;
      call := BeginAttempt();
      if call.Some? {
        closeModal := FinishAttempt(outcome);
      }
    }
  }
}
