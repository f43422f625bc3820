/**
 * The two password-reset screens (`ForgotPasswordRequestView`,
 * `ForgotPasswordConfirmView`). The service calls run in a `Task`; here
 * `Submit` starts one and `RequestFinished` / `ConfirmFinished` deliver how
 * it ended. Analytics events are recorded as the e-mail domains they carry.
 */
module ForgotPassword {
  import opened Wrappers
  import opened Strings
  import opened Auth
  import opened TemplateApp
  import SessionStorage

  const EnterEmailMessage: string := "Enter the email associated with your account."
  const SendFailedMessage: string := "Unable to send reset code."
  const EnterCodeMessage: string := "Enter the verification code."
  const EnterPasswordMessage: string := "Enter a new password."
  const MismatchMessage: string := "Passwords do not match."
  const UpdateFailedMessage: string := "Unable to update password."
  const UnexpectedMessage: string := "Unexpected error. Please try again."

  /** The domain for analytics: the last non-empty '@'-piece, or "unknown" when there is none. */
  function EmailDomain(email: string): (r: string)
    ensures Split(email, '@') == [] ==> r == "unknown"
    ensures Split(email, '@') != [] ==> r == Split(email, '@')[|Split(email, '@')| - 1]
    ensures r != [] && '@' !in r
  {
    var parts := Split(email, '@');
    if parts == [] then "unknown" else parts[|parts| - 1]
  }

  /** An address's domain is what follows its last '@'; only a string of '@'s (or nothing) is "unknown". */
  lemma EmailDomainOfAddress(local: string, domain: string)
    requires domain != [] && '@' !in domain
    ensures EmailDomain(local + "@" + domain) == domain
  {
    SplitLastPiece(local, '@', domain);
  }

  lemma EmailDomainUnknown(email: string)
    ensures Split(email, '@') == [] <==> forall k :: 0 <= k < |email| ==> email[k] == '@'
  {
    SplitEmptyIffSeparatorsOnly(email, '@');
  }

  /** The reset code's delivery, as the service describes it. */
  datatype PendingPasswordReset = PendingPasswordReset(id: nat, email: string, message: string, deliveryDescription: string)

  /** How a service call ended: success, the API's error (with its message, if any), or another thrown error. */
  datatype CallOutcome<+T> = Succeeded(value: T) | ApiFailed(message: Option<string>) | OtherFailure

  /** The message a failed call shows: the API's own, or the screen's default; any other error is unexpected. */
  function FailureMessage<T>(outcome: CallOutcome<T>, fallback: string): (r: string)
    requires !outcome.Succeeded?
    ensures outcome.ApiFailed? ==> r == outcome.message.GetOr(fallback)
    ensures outcome.OtherFailure? ==> r == UnexpectedMessage
  {
    if outcome.ApiFailed? then outcome.message.GetOr(fallback) else UnexpectedMessage
  }

  class RequestScreen {
    var email: string
    var errorMessage: Option<string>
    var isSubmitting: bool
    var pendingReset: Option<PendingPasswordReset>
    /** The e-mail domains sent with "reset requested" events. */
    var trackedDomains: seq<string>

    constructor()
      ensures email == [] && errorMessage == None && !isSubmitting && pendingReset == None && trackedDomains == []
    {
      email := [];
      errorMessage := None;
      isSubmitting := false;
      pendingReset := None;
      trackedDomains := [];
    }

    /** `submit`: an empty address is refused with a message; otherwise the request starts. */
    method Submit() returns (started: bool)
      modifies this`errorMessage, this`isSubmitting
      ensures started <==> email != []
      ensures !started ==> errorMessage == Some(EnterEmailMessage) && isSubmitting == old(isSubmitting)
      ensures started ==> isSubmitting && errorMessage == None
    {
      if email == [] {
        errorMessage := Some(EnterEmailMessage);
        return false;
      }
      isSubmitting := true;
      errorMessage := None;
      started := true;
    }

    /** The request's end: a sent code opens the confirm screen and is tracked; a failure shows its message. */
    method RequestFinished(outcome: CallOutcome<(string, string)>, pendingId: nat)
      modifies this`errorMessage, this`isSubmitting, this`pendingReset, this`trackedDomains
      ensures !isSubmitting
      ensures outcome.Succeeded? ==>
        && pendingReset == Some(PendingPasswordReset(pendingId, email, outcome.value.0, outcome.value.1))
        && trackedDomains == old(trackedDomains) + [EmailDomain(email)]
        && errorMessage == old(errorMessage)
      ensures !outcome.Succeeded? ==>
        && errorMessage == Some(FailureMessage(outcome, SendFailedMessage))
        && pendingReset == old(pendingReset) && trackedDomains == old(trackedDomains)
    {
      if outcome.Succeeded? {
        pendingReset := Some(PendingPasswordReset(pendingId, email, outcome.value.0, outcome.value.1));
        isSubmitting := false;
        trackedDomains := trackedDomains + [EmailDomain(email)];
      } else {
        errorMessage := Some(FailureMessage(outcome, SendFailedMessage));
        isSubmitting := false;
      }
    }
  }

  /** The confirm screen's checks in order; the first that fails names the message shown. */
  function ConfirmProblem(code: string, newPassword: string, confirmPassword: string): (r: Option<string>)
    ensures r.None? <==> code != [] && newPassword != [] && newPassword == confirmPassword
    ensures code == [] ==> r == Some(EnterCodeMessage)
    ensures code != [] && newPassword == [] ==> r == Some(EnterPasswordMessage)
    ensures code != [] && newPassword != [] && newPassword != confirmPassword ==> r == Some(MismatchMessage)
  {
    if code == [] then Some(EnterCodeMessage)
    else if newPassword == [] then Some(EnterPasswordMessage)
    else if newPassword != confirmPassword then Some(MismatchMessage)
    else None
  }

  class ConfirmScreen {
    const appState: AppState
    const pending: PendingPasswordReset
    var code: string
    var newPassword: string
    var confirmPassword: string
    var errorMessage: Option<string>
    var isSubmitting: bool
    /** The e-mail domains sent with "reset confirmed" events. */
    var trackedDomains: seq<string>

    constructor(appState: AppState, pending: PendingPasswordReset)
      ensures this.appState == appState && this.pending == pending
      ensures code == [] && newPassword == [] && confirmPassword == []
      ensures errorMessage == None && !isSubmitting && trackedDomains == []
    {
      this.appState := appState;
      this.pending := pending;
      code := [];
      newPassword := [];
      confirmPassword := [];
      errorMessage := None;
      isSubmitting := false;
      trackedDomains := [];
    }

    /** `submit`: the first failing check's message, or the start of the reset when all pass. */
    method Submit() returns (started: bool)
      modifies this`errorMessage, this`isSubmitting
      ensures started <==> ConfirmProblem(code, newPassword, confirmPassword).None?
      ensures !started ==> errorMessage == ConfirmProblem(code, newPassword, confirmPassword) && isSubmitting == old(isSubmitting)
      ensures started ==> isSubmitting && errorMessage == None
    {
      var problem := ConfirmProblem(code, newPassword, confirmPassword);
      if problem.Some? {
        errorMessage := problem;
        return false;
      }
      isSubmitting := true;
      errorMessage := None;
      started := true;
    }

    /** The reset and the login that follows it: a session signs in and is tracked; a failure shows its message. */
    method ConfirmFinished(outcome: CallOutcome<AuthSession>, encodes: bool, newLoginID: nat)
      modifies this`errorMessage, this`isSubmitting, this`trackedDomains
      modifies appState`authState, appState`shouldShowWelcome, appState`latestLoginSuccessID, appState`profileSyncs, appState.storage`slot
      ensures !isSubmitting
      ensures outcome.Succeeded? ==>
        && appState.authState == SignedIn(outcome.value) && !appState.shouldShowWelcome
        && appState.latestLoginSuccessID == Some(newLoginID)
        && appState.profileSyncs == old(appState.profileSyncs) + [true]
        && (encodes ==> appState.storage.slot == Some(SessionStorage.Encoded(outcome.value)))
        && (!encodes ==> appState.storage.slot == old(appState.storage.slot))
        && errorMessage == old(errorMessage)
        && trackedDomains == old(trackedDomains) + [EmailDomain(pending.email)]
      ensures !outcome.Succeeded? ==>
        && errorMessage == Some(FailureMessage(outcome, UpdateFailedMessage))
        && appState.authState == old(appState.authState)
        && appState.shouldShowWelcome == old(appState.shouldShowWelcome)
        && appState.latestLoginSuccessID == old(appState.latestLoginSuccessID)
        && appState.profileSyncs == old(appState.profileSyncs)
        && appState.storage.slot == old(appState.storage.slot)
        && trackedDomains == old(trackedDomains)
    {
      if outcome.Succeeded? {
        appState.HandleLoginSuccess(outcome.value, encodes, newLoginID);
        isSubmitting := false;
        trackedDomains := trackedDomains + [EmailDomain(pending.email)];
      } else {
        errorMessage := Some(FailureMessage(outcome, UpdateFailedMessage));
        isSubmitting := false;
      }
    }
  }
}
