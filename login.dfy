/**
 * The login page: the ordered input checks of `handleSubmit`, the sign-in or
 * sign-up call and what each outcome leaves on the page, the error on
 * display and the variant of its alert. The submission is split at its
 * `await`: `BeginSubmit` runs up to the call and `FinishSubmit` after it.
 */
module Login {
  import opened Wrappers
  import opened JsText

  const FillInMessage := "Please fill in all fields"
  const ShortPasswordMessage := "Password must be at least 6 characters"
  const ConfirmMessage := "Check your email to confirm your account"
  const FallbackMessage := "Authentication failed"

  /** The checks before the call: the message that stops the submission, if any. */
  function GuardMessage(email: string, password: string): (m: Option<string>)
    ensures m.None? <==> email != [] && password != [] && Utf16Length(password) >= 6
    ensures m == Some(FillInMessage) <==> email == [] || password == []
  {
    if email == [] || password == [] then Some(FillInMessage)
    else if Utf16Length(password) < 6 then Some(ShortPasswordMessage)
    else None
  }

  /** The emptiness check comes first: an empty password is reported as a missing field, not a short one. */
  lemma EmptyPasswordIsMissingField(email: string)
    ensures GuardMessage(email, []) == Some(FillInMessage)
  {
  }

  /** A password of fewer than six UTF-16 units, with both fields filled in, is reported as short. */
  lemma ShortPasswordReported(email: string, password: string)
    requires email != [] && password != [] && Utf16Length(password) < 6
    ensures GuardMessage(email, password) == Some(ShortPasswordMessage)
  {
  }

  /** How the awaited `signIn` or `signUp` ended: normally, or by throwing (an `Error` carries a message). */
  datatype AuthOutcome = Succeeded | Threw(errorMessage: Option<string>)

  /** `localError || error`: the page's own message unless it is null or empty. */
  function DisplayError(localError: Option<string>, contextError: Option<string>): (d: Option<string>)
    ensures localError.Some? && localError.value != [] ==> d == localError
    ensures (localError.None? || localError.value == []) ==> d == contextError
  {
    if localError.Some? && localError.value != [] then localError else contextError
  }

  datatype AlertVariant = Default | Destructive

  /** The alert shown for the displayed error: none for a null or empty one, else by its text. */
  function AlertFor(display: Option<string>): (a: Option<AlertVariant>)
    ensures a.None? <==> display.None? || display.value == []
    ensures a == Some(Default) <==> display.Some? && display.value != [] && Includes(display.value, "Check your email")
  {
    if display.Some? && display.value != [] then
      Some(if Includes(display.value, "Check your email") then Default else Destructive)
    else None
  }

  /** The sign-up confirmation is shown as a plain alert. */
  lemma ConfirmationIsDefaultAlert(contextError: Option<string>)
    ensures AlertFor(DisplayError(Some(ConfirmMessage), contextError)) == Some(Default)
  {
    assert OccursAt(ConfirmMessage, "Check your email", 0);
  }

  /** The two messages of the checks are shown as errors: neither contains a capital C. */
  lemma GuardMessagesAreDestructive(email: string, password: string)
    requires GuardMessage(email, password).Some?
    ensures AlertFor(GuardMessage(email, password)) == Some(Destructive)
  {
    if email == [] || password == [] {
      FirstCharMissingExcludes(FillInMessage, "Check your email");
    } else {
      FirstCharMissingExcludes(ShortPasswordMessage, "Check your email");
    }
  }

  class LoginPage {
    var email: string
    var password: string
    var isLoading: bool
    var isSignUp: bool
    var localError: Option<string>
    /** The last route pushed to the router, if any. */
    var navigatedTo: Option<string>

    constructor ()
      ensures email == [] && password == [] && !isLoading && !isSignUp
      ensures localError == None && navigatedTo == None
    {
      email := [];
      password := [];
      isLoading := false;
      isSignUp := false;
      localError := None;
      navigatedTo := None;
    }

    /** The "Sign Up" / "Sign In" links below the form. */
    method SetSignUp(value: bool)
      modifies this`isSignUp
      ensures isSignUp == value
    {
      isSignUp := value;
    }

    /**
     * `handleSubmit` up to the auth call: clear the message, run the two
     * checks in order, and on success raise `isLoading`. `callsAuth` says
     * whether the call is made, `asSignUp` which one.
     */
    method BeginSubmit() returns (callsAuth: bool, asSignUp: bool)
      modifies this`localError, this`isLoading
      ensures callsAuth <==> GuardMessage(email, password).None?
      ensures asSignUp == isSignUp
      ensures callsAuth ==> localError == None && isLoading
      ensures !callsAuth ==> localError == GuardMessage(email, password) && isLoading == old(isLoading)
    {
      localError := None;
      asSignUp := isSignUp;
      if email == [] || password == [] {
        localError := Some(FillInMessage);
        return false, asSignUp;
      }
      if Utf16Length(password) < 6 {
        localError := Some(ShortPasswordMessage);
        return false, asSignUp;
      }
      isLoading := true;
      callsAuth := true;
    }

    /**
     * `handleSubmit` after the awaited call made in mode `asSignUp`: a
     * sign-up asks the user to confirm, a sign-in goes to the dashboard, a
     * failure shows its message; `isLoading` drops in every case.
     */
    method FinishSubmit(asSignUp: bool, outcome: AuthOutcome)
      modifies this`localError, this`isLoading, this`navigatedTo
      ensures !isLoading
      ensures outcome == Succeeded && asSignUp ==>
                localError == Some(ConfirmMessage) && navigatedTo == old(navigatedTo)
      ensures outcome == Succeeded && !asSignUp ==>
                localError == old(localError) && navigatedTo == Some("/dashboard")
      ensures outcome.Threw? ==>
                localError == Some(outcome.errorMessage.GetOr(FallbackMessage)) && navigatedTo == old(navigatedTo)
    {
      match outcome {
        case Succeeded =>
          if asSignUp {
            localError := Some(ConfirmMessage);
          } else {
            navigatedTo := Some("/dashboard");
          }
        case Threw(message) =>
          localError := Some(message.GetOr(FallbackMessage));
      }
      isLoading := false;
    }
  }
}
