/**
 * The page Spotify redirects to after authorisation: it reads the `code` and
 * `error` query parameters, reports an OAuth error in words, or hands the code
 * to the Spotify service and shows the outcome of the token exchange. The
 * query parameters and the exchange's outcome are parameters.
 */
module SpotifyCallback {
  import opened Wrappers
  import opened Text

  // ---------------------------------------------------------------------------
  // OAuth error messages

  /**
   * The OAuth error codes with a message of their own, and those messages in
   * the same order. The two longest messages are joined from their two
   * sentences, so that the verifier can read their first character.
   */
  const KnownCodes: seq<string> := [
    "access_denied", "invalid_request", "unauthorized_client", "unsupported_response_type",
    "invalid_scope", "server_error", "temporarily_unavailable"]
  const KnownMessages: seq<string> := [
    "You cancelled the Spotify authorization.",
    "Invalid request. Please try again.",
    "App not authorized by Spotify.",
    "Configuration error. Please contact support.",
    "Invalid permissions requested.",
    "Spotify server error." + " Please try again later.",
    "Spotify is temporarily unavailable." + " Please try again later."]

  /** What precedes an unknown code in its message. */
  const FallbackPrefix := "Authentication error: "

  /** The position of `code` among the known codes, if it is one. */
  function CodeIndex(code: string): (i: Option<nat>)
    ensures i.Some? ==> i.value < |KnownCodes| && KnownCodes[i.value] == code
    ensures i.None? ==> code !in KnownCodes
  {
    if code == KnownCodes[0] then Some(0)
    else if code == KnownCodes[1] then Some(1)
    else if code == KnownCodes[2] then Some(2)
    else if code == KnownCodes[3] then Some(3)
    else if code == KnownCodes[4] then Some(4)
    else if code == KnownCodes[5] then Some(5)
    else if code == KnownCodes[6] then Some(6)
    else None
  }

  /** `handleAuthError`'s message: the fixed text of a known code, otherwise the code after the prefix. */
  function AuthErrorMessage(code: string): (m: string)
    ensures code in KnownCodes ==> m in KnownMessages
    ensures code !in KnownCodes ==> m == FallbackPrefix + code
  {
    match CodeIndex(code)
    case Some(i) => KnownMessages[i]
    case None => FallbackPrefix + code
  }

  /** The `i`-th known code gets the `i`-th message. */
  lemma KnownCodeMessage(i: nat)
    requires i < |KnownCodes|
    ensures AuthErrorMessage(KnownCodes[i]) == KnownMessages[i]
  {
  }

  /** No known message reads like the message of an unknown code. */
  lemma KnownMessagesAreNotFallbacks(i: nat)
    requires i < |KnownMessages|
    ensures !(FallbackPrefix <= KnownMessages[i])
  {
    assert FallbackPrefix[0] == 'A' && FallbackPrefix[1] == 'u';
    var m := KnownMessages[i];
    if i == 0 {
      assert m[0] == 'Y';
    } else if i == 1 {
      assert m[0] == 'I';
    } else if i == 2 {
      assert m[1] == 'p';
    } else if i == 3 {
      assert m[0] == 'C';
    } else if i == 4 {
      assert m[0] == 'I';
    } else {
      assert m[0] == 'S';
    }
  }

  /** Different codes give different messages: the message tells which code was reported. */
  lemma AuthErrorMessageInjective(a: string, b: string)
    requires AuthErrorMessage(a) == AuthErrorMessage(b)
    ensures a == b
  {
    var m := AuthErrorMessage(a);
    match CodeIndex(a) {
      case Some(i) =>
        KnownMessagesAreNotFallbacks(i);
        if CodeIndex(b).Some? {
          KnownMessagesDistinct(i, CodeIndex(b).value);
        }
      case None =>
        if CodeIndex(b).Some? {
          KnownMessagesAreNotFallbacks(CodeIndex(b).value);
        } else {
          assert a == m[|FallbackPrefix|..] == b;
        }
    }
  }

  lemma KnownMessagesDistinct(i: nat, j: nat)
    requires i < |KnownMessages| && j < |KnownMessages|
    ensures KnownMessages[i] == KnownMessages[j] ==> i == j
  {
  }

  /** A missing code is reported through the same path as an unknown OAuth error code. */
  lemma MissingCodeMessage()
    ensures AuthErrorMessage(MissingCodeReason) == FallbackPrefix + MissingCodeReason
  {
  }

  // ---------------------------------------------------------------------------
  // The page's state

  const MissingCodeReason := "No authorization code received"
  const ExchangeFailedMessage := "Failed to authenticate with Spotify"
  const ExchangeThrewMessage := "Authentication failed. Please try again."
  /** How long the success message shows before the page returns to the application, in milliseconds. */
  const RedirectDelay := 2000

  /** How the token exchange ended: the service reported success or failure, or it threw. */
  datatype ExchangeOutcome = Reported(success: bool) | Threw

  class Callback {
    var isProcessing: bool
    var error: Option<string>
    /** The routes navigated to, in order. */
    var navigations: seq<string>

    constructor ()
      ensures isProcessing && error == None && navigations == []
    {
      isProcessing := true;
      error := None;
      navigations := [];
    }

    /** `handleAuthError`: processing ends and the message is shown. */
    method HandleAuthError(reason: string)
      modifies this
      ensures !isProcessing && error == Some(AuthErrorMessage(reason))
      ensures navigations == old(navigations)
    {
      isProcessing := false;
      error := Some(AuthErrorMessage(reason));
    }

    /**
     * `handleCallback`, up to the exchange: an `error` parameter wins over a
     * code; without either the page fails; otherwise the code is handed on.
     */
    method HandleCallback(code: Option<string>, errorParam: Option<string>) returns (exchanged: Option<string>)
      modifies this
      ensures Truthy(errorParam) ==>
        exchanged == None && !isProcessing && error == Some(AuthErrorMessage(errorParam.value))
      ensures !Truthy(errorParam) && !Truthy(code) ==>
        exchanged == None && !isProcessing && error == Some(AuthErrorMessage(MissingCodeReason))
      ensures !Truthy(errorParam) && Truthy(code) ==>
        exchanged == Some(code.value) && isProcessing == old(isProcessing) && error == old(error)
      ensures navigations == old(navigations)
    {
      if Truthy(errorParam) {
        HandleAuthError(errorParam.value);
        return None;
      }
      if !Truthy(code) {
        HandleAuthError(MissingCodeReason);
        return None;
      }
      exchanged := Some(code.value);
    }

    /**
     * The exchange ended: processing ends; a reported success schedules the
     * return to the application, anything else sets its message.
     */
    method ExchangeEnded(outcome: ExchangeOutcome) returns (redirectAfter: Option<int>)
      modifies this
      ensures !isProcessing
      ensures outcome == Reported(true) ==> redirectAfter == Some(RedirectDelay) && error == old(error)
      ensures outcome == Reported(false) ==> redirectAfter == None && error == Some(ExchangeFailedMessage)
      ensures outcome == Threw ==> redirectAfter == None && error == Some(ExchangeThrewMessage)
      ensures navigations == old(navigations)
    {
      isProcessing := false;
      match outcome {
        case Reported(success) =>
          if success {
            redirectAfter := Some(RedirectDelay);
          } else {
            error := Some(ExchangeFailedMessage);
            redirectAfter := None;
          }
        case Threw =>
          error := Some(ExchangeThrewMessage);
          redirectAfter := None;
      }
    }

    /** `goHome`. */
    method GoHome()
      modifies this
      ensures navigations == old(navigations) + ["/"]
      ensures isProcessing == old(isProcessing) && error == old(error)
    {
      navigations := navigations + ["/"];
    }
  }

  /**
   * Every callback ends processing with an error, or hands on the code; and
   * a callback with a code and no error that the exchange confirms shows no error.
   */
  method CallbackScenario(code: string, outcome: ExchangeOutcome) returns (shown: Option<string>, redirectAfter: Option<int>)
    requires code != ""
    ensures outcome == Reported(true) ==> shown == None && redirectAfter == Some(RedirectDelay)
    ensures outcome != Reported(true) ==> shown.Some? && redirectAfter == None
  {
    var page := new Callback();
    var exchanged := page.HandleCallback(Some(code), None);
    redirectAfter := page.ExchangeEnded(outcome);
    shown := page.error;
  }
}
