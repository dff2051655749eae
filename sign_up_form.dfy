/**
 * The sign-up form (src/components/auth/SignUpForm.tsx): client-side
 * checks, then the request to the sign-up endpoint, then the state the
 * reply leaves.  The fetch and the redirect timer are not modelled; the
 * reply is an input.
 */
module SignUpForm {
  import opened Wrappers
  import Json
  import SignUpRoute

  /** What `fetch` and `response.json()` give: a reply, or an exception. */
  datatype Reply = Reply(ok: bool, error: Option<string>) | FetchThrows

  const AllRequired := "All fields are required"
  const Mismatch := "Passwords do not match"
  const TooShort := "Password must be at least 8 characters"
  const SignUpFailed := "Sign up failed"
  const Unexpected := "An unexpected error occurred"

  /**
   * The client-side checks in order: required fields, matching passwords,
   * length; the first failure's message, or None when all pass.
   */
  function ClientCheck(email: string, password: string, confirmPassword: string): (r: Option<string>)
    ensures r == None <==>
      email != "" && password != "" && confirmPassword != "" && password == confirmPassword && Json.Utf16Length(password) >= 8
    ensures r.Some? ==> r.value in {AllRequired, Mismatch, TooShort}
  {
    if email == "" || password == "" || confirmPassword == "" then Some(AllRequired)
    else if password != confirmPassword then Some(Mismatch)
    else if Json.Utf16Length(password) < 8 then Some(TooShort)
    else None
  }

  /** An empty field wins over a mismatch, and a mismatch over a short password. */
  lemma ClientCheckOrder(email: string, password: string, confirmPassword: string)
    ensures (email == "" || password == "" || confirmPassword == "") ==>
      ClientCheck(email, password, confirmPassword) == Some(AllRequired)
    ensures (email != "" && password != "" && confirmPassword != "" && password != confirmPassword) ==>
      ClientCheck(email, password, confirmPassword) == Some(Mismatch)
  {
  }

  /** A request the form sends passes the endpoint's own checks and reaches the auth service. */
  lemma SentRequestsReachService(email: string, password: string, confirmPassword: string, backend: SignUpRoute.SignUpResult)
    requires ClientCheck(email, password, confirmPassword) == None
    ensures SignUpRoute.Post(SignUpRoute.Body(Json.Str(email), Json.Str(password)), backend).call
      == Some((Json.Str(email), Json.Str(password)))
  {
  }

  /** The component's state. */
  class SignUpForm {
    var email: string
    var password: string
    var confirmPassword: string
    var loading: bool
    var error: Option<string>
    var success: bool

    constructor ()
      ensures email == "" && password == "" && confirmPassword == ""
      ensures !loading && error == None && !success
    {
      email, password, confirmPassword := "", "", "";
      loading, error, success := false, None, false;
    }

    /**
     * handleSignUp: returns the (email, password) it posts, if it posts.
     * On success the fields are cleared and loading stays set.
     */
    method HandleSignUp(reply: Reply) returns (request: Option<(string, string)>)
      modifies this
      ensures var check := ClientCheck(old(email), old(password), old(confirmPassword));
        && (request.Some? <==> check == None)
        && (request.None? ==> error == check && !loading)
      ensures request.Some? ==> request.value == (old(email), old(password))
      ensures request.Some? && reply.Reply? && reply.ok ==>
        && success && loading && error == None
        && email == "" && password == "" && confirmPassword == ""
      ensures request.Some? && reply.Reply? && !reply.ok ==>
        error == Some(Json.MessageOr(reply.error, SignUpFailed)) && !loading
      ensures request.Some? && reply.FetchThrows? ==> error == Some(Unexpected) && !loading
      ensures !(request.Some? && reply.Reply? && reply.ok) ==>
        && success == old(success)
        && email == old(email) && password == old(password) && confirmPassword == old(confirmPassword)
    {
      error := None;
      loading := true;

      if email == "" || password == "" || confirmPassword == "" {
        error := Some(AllRequired);
        loading := false;
        return None;
      }
      if password != confirmPassword {
        error := Some(Mismatch);
        loading := false;
        return None;
      }
      if Json.Utf16Length(password) < 8 {
        error := Some(TooShort);
        loading := false;
        return None;
      }

      request := Some((email, password));
      match reply
      case FetchThrows =>
        error := Some(Unexpected);
        loading := false;
      case Reply(ok, replyError) =>
        if !ok {
          error := Some(Json.MessageOr(replyError, SignUpFailed));
          loading := false;
          return;
        }
        success := true;
        email := "";
        password := "";
        confirmPassword := "";
    }
  }
}
