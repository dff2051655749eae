/**
 * The sign-up endpoint (src/app/api/auth/sign-up/route.ts): a cascade of
 * checks on the request body before the hosted auth service is called.
 * The service is not modelled; its answer is an input.
 */
module SignUpRoute {
  import opened Wrappers
  import opened Json

  /**
   * The request body: MalformedBody for any body that `request.json()` or
   * the destructuring of its fields rejects (invalid JSON, or `null`),
   * otherwise the email and password fields.
   */
  datatype Request = MalformedBody | Body(email: Value, password: Value)

  /** What the auth service's signUp(email, password) does. */
  datatype SignUpResult = SignedUp | SignUpError(message: string) | SignUpThrows

  datatype Response = Response(status: int, error: Option<string>, message: Option<string>)

  /** The response, and the arguments of the signUp call if one is made. */
  datatype Outcome = Outcome(call: Option<(Value, Value)>, response: Response)

  const RequiredMessage := "Email and password are required"
  const ShortPasswordMessage := "Password must be at least 8 characters"
  const SuccessMessage := "Sign up successful. Check your email for verification."
  const InternalMessage := "Internal server error"

  /**
   * `password.length < 8`: a string's length in UTF-16 code units, or an
   * object's own `length` property as a number.  Other values have no
   * length, and a comparison with undefined or NaN is false.
   */
  predicate TooShort(password: Value)
  {
    || (password.Str? && Utf16Length(password.s) < 8)
    || (password.Obj? && password.length.Some? && password.length.value < 8)
  }

  /** The body passes both checks of the handler. */
  predicate Valid(email: Value, password: Value)
  {
    Truthy(email) && Truthy(password) && !TooShort(password)
  }

  /** POST /api/auth/sign-up. */
  function Post(request: Request, backend: SignUpResult): (o: Outcome)
    ensures o.call.Some? <==> request.Body? && Valid(request.email, request.password)
    ensures o.call.Some? ==> o.call.value == (request.email, request.password)
    ensures o.response.status == 200 <==> o.call.Some? && backend == SignedUp
    ensures o.response.status == 500 <==> request.MalformedBody? || (o.call.Some? && backend == SignUpThrows)
    ensures o.response.status in {200, 400, 500}
  {
    match request
    case MalformedBody => Outcome(None, Response(500, Some(InternalMessage), None))
    case Body(email, password) =>
      if !Truthy(email) || !Truthy(password) then
        Outcome(None, Response(400, Some(RequiredMessage), None))
      else if TooShort(password) then
        Outcome(None, Response(400, Some(ShortPasswordMessage), None))
      else
        var call := Some((email, password));
        match backend
        case SignUpThrows => Outcome(call, Response(500, Some(InternalMessage), None))
        case SignUpError(message) => Outcome(call, Response(400, Some(message), None))
        case SignedUp => Outcome(call, Response(200, None, Some(SuccessMessage)))
  }

  /**
   * A missing or empty field gives 400 "Email and password are required",
   * before the password length is considered, and the service is not called.
   */
  lemma RequiredFieldsFirst(email: Value, password: Value, backend: SignUpResult)
    requires !Truthy(email) || !Truthy(password)
    ensures Post(Body(email, password), backend) == Outcome(None, Response(400, Some(RequiredMessage), None))
  {
  }

  /** A password of exactly 8 code units passes; 7 are rejected with 400. */
  lemma PasswordLengthBoundary(email: Value, password: string, backend: SignUpResult)
    requires Truthy(email) && Utf16Length(password) >= 7
    ensures Utf16Length(password) == 7 ==>
      Post(Body(email, Str(password)), backend).response == Response(400, Some(ShortPasswordMessage), None)
    ensures Utf16Length(password) == 8 ==> Post(Body(email, Str(password)), backend).call.Some?
  {
  }

  /**
   * The length is counted in UTF-16 code units: four characters beyond
   * U+FFFF make a password of length 8, which reaches the service.
   */
  lemma AstralPasswordPasses(email: Value, backend: SignUpResult)
    requires Truthy(email)
    ensures Post(Body(email, Str("\U{1F600}\U{1F600}\U{1F600}\U{1F600}")), backend).call.Some?
  {
    var face := "\U{1F600}";
    assert Utf16Length(face) == 2;
    Utf16LengthAppend(face, face);
    Utf16LengthAppend(face + face, face + face);
    assert face + face + (face + face) == "\U{1F600}\U{1F600}\U{1F600}\U{1F600}";
  }

  /** Whatever the service would answer, a rejected request gets the same response. */
  lemma RejectionIgnoresBackend(request: Request, b1: SignUpResult, b2: SignUpResult)
    requires Post(request, b1).call.None?
    ensures Post(request, b1) == Post(request, b2)
  {
  }

  /** A service error is reported with status 400 and the service's message. */
  lemma BackendErrorMessage(email: Value, password: Value, message: string)
    requires Valid(email, password)
    ensures Post(Body(email, password), SignUpError(message)).response == Response(400, Some(message), None)
  {
  }

  /**
   * An object password is judged by its own `length` property: one below 8
   * gives 400 without calling the service; one without a numeric length
   * passes the check.
   */
  lemma ObjectPasswordLength(email: Value, length: int, backend: SignUpResult)
    requires Truthy(email)
    ensures length < 8 ==>
      Post(Body(email, Obj(Some(length))), backend) == Outcome(None, Response(400, Some(ShortPasswordMessage), None))
    ensures length >= 8 ==> Post(Body(email, Obj(Some(length))), backend).call.Some?
    ensures Post(Body(email, Obj(None)), backend).call.Some?
  {
  }
}
