/**
 * The sign-in page's error line: the message for each authentication error code,
 * and the error state each sign-in handler leaves behind.
 */
module LoginPage {
  import opened Wrappers
  import opened Values

  const InvalidCredentials := "Invalid email or password."
  const EmailInUse := "An account with this email already exists."
  const WeakPassword := "Password must be at least 6 characters."
  const InvalidEmail := "Please enter a valid email address."
  const TooManyRequests := "Too many attempts. Please try again later."
  const Fallback := "Something went wrong. Please try again."

  /** The codes reported for a wrong email, a wrong password, or both. */
  const CredentialCodes: set<Value> :=
    {Str("auth/invalid-credential"), Str("auth/wrong-password"), Str("auth/user-not-found")}

  /** The codes with a message of their own. */
  const KnownCodes: set<Value> :=
    CredentialCodes + {Str("auth/email-already-in-use"), Str("auth/weak-password"),
                       Str("auth/invalid-email"), Str("auth/too-many-requests")}

  /** `friendlyError(code)`: the `switch` over the error code, with `===` on each case. */
  function FriendlyError(code: Value): (r: string)
    ensures r != ""
    ensures code in CredentialCodes ==> r == InvalidCredentials
    ensures code == Str("auth/email-already-in-use") ==> r == EmailInUse
    ensures code == Str("auth/weak-password") ==> r == WeakPassword
    ensures code == Str("auth/invalid-email") ==> r == InvalidEmail
    ensures code == Str("auth/too-many-requests") ==> r == TooManyRequests
    ensures code !in KnownCodes ==> r == Fallback
  {
    match code
    case Str("auth/invalid-credential") => InvalidCredentials
    case Str("auth/wrong-password") => InvalidCredentials
    case Str("auth/user-not-found") => InvalidCredentials
    case Str("auth/email-already-in-use") => EmailInUse
    case Str("auth/weak-password") => WeakPassword
    case Str("auth/invalid-email") => InvalidEmail
    case Str("auth/too-many-requests") => TooManyRequests
    case _ => Fallback
  }

  /** The six messages are pairwise different. */
  lemma MessagesDistinct()
    ensures var ms := [InvalidCredentials, EmailInUse, WeakPassword, InvalidEmail, TooManyRequests, Fallback];
      forall i, j :: 0 <= i < j < |ms| ==> ms[i] != ms[j]
  {
    var ms := [InvalidCredentials, EmailInUse, WeakPassword, InvalidEmail, TooManyRequests, Fallback];
    assert WeakPassword[0] != Fallback[0];
    assert EmailInUse[0] != TooManyRequests[0];
  }

  /**
   * Each message names its codes exactly: a code gets the credentials message iff it
   * is one of the three credential codes, and the fallback iff it is none of the seven.
   */
  lemma FriendlyErrorExact(code: Value)
    ensures FriendlyError(code) == InvalidCredentials <==> code in CredentialCodes
    ensures FriendlyError(code) == EmailInUse <==> code == Str("auth/email-already-in-use")
    ensures FriendlyError(code) == WeakPassword <==> code == Str("auth/weak-password")
    ensures FriendlyError(code) == InvalidEmail <==> code == Str("auth/invalid-email")
    ensures FriendlyError(code) == TooManyRequests <==> code == Str("auth/too-many-requests")
    ensures FriendlyError(code) == Fallback <==> code !in KnownCodes
  {
    MessagesDistinct();
  }

  /** The code `signInWithPopup` reports when the user closes the popup. */
  const PopupClosed := Str("auth/popup-closed-by-user")

  /**
   * The error line after `handleEmailAuth`: cleared at the start, then set from the
   * code of the failure; `failure` is None when sign-in succeeds.
   */
  function EmailAuthError(failure: Option<Value>): (r: string)
    ensures failure.None? ==> r == ""
    ensures failure.Some? ==> r == FriendlyError(failure.value) && r != ""
  {
    match failure
    case None => ""
    case Some(code) => FriendlyError(code)
  }

  /** The error line after `handleGoogle`: as for email, except that a closed popup is no error. */
  function GoogleAuthError(failure: Option<Value>): (r: string)
    ensures r == "" <==> failure.None? || failure.value == PopupClosed
    ensures failure.Some? && failure.value != PopupClosed ==> r == FriendlyError(failure.value)
  {
    match failure
    case None => ""
    case Some(code) => if code != PopupClosed then FriendlyError(code) else ""
  }

  /** The two handlers report the same error for every outcome but a closed popup. */
  lemma HandlersDifferOnlyOnPopupClosed(failure: Option<Value>)
    ensures GoogleAuthError(failure) == EmailAuthError(failure) <==> failure != Some(PopupClosed)
  {
  }
}
