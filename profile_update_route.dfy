/**
 * The profile update endpoint (src/app/api/profile/update/route.ts):
 * authentication, ownership and length checks before the profile row is
 * updated.  The auth lookup and the database are not modelled; their
 * answers are inputs.
 */
module ProfileUpdateRoute {
  import opened Wrappers
  import opened Json

  /** What getAuthUser() yields: no user, a user id, or an exception. */
  datatype AuthUser = NoUser | User(id: string) | AuthThrows

  /**
   * The request body: MalformedBody for any body that `request.json()` or
   * the destructuring of its fields rejects (invalid JSON, or `null`),
   * otherwise its four fields.
   */
  datatype Request = MalformedBody | Body(userId: Value, fullName: Value, bio: Value, avatarUrl: Value)

  /** The arguments of updateUserProfile(id, { full_name, bio, avatar_url }). */
  datatype UpdateCall = UpdateCall(targetId: string, fullName: Value, bio: Value, avatarUrl: Value)

  /** What updateUserProfile does. */
  datatype UpdateResult = Updated | UpdateError(message: string) | UpdateThrows

  datatype Response = Response(status: int, error: Option<string>, message: Option<string>)

  datatype Outcome = Outcome(call: Option<UpdateCall>, response: Response)

  const NotAuthenticated := "Not authenticated"
  const NotOwner := "Unauthorized: Cannot update another user's profile"
  const FullNameTooLong := "Full name must be 100 characters or less"
  const BioTooLong := "Bio must be 500 characters or less"
  const UpdatedMessage := "Profile updated successfully"
  const InternalMessage := "Internal server error"

  /** `v && typeof v === "string" && v.length > limit`. */
  predicate LongerThan(v: Value, limit: int)
  {
    Truthy(v) && v.Str? && Utf16Length(v.s) > limit
  }

  /** `userId !== user.id`: strict inequality with the authenticated id. */
  predicate IsOwner(userId: Value, id: string)
  {
    userId == Str(id)
  }

  /** The request passes every check for the authenticated user `id`. */
  predicate Accepted(request: Request, id: string)
  {
    && request.Body?
    && IsOwner(request.userId, id)
    && !LongerThan(request.fullName, 100)
    && !LongerThan(request.bio, 500)
  }

  /** POST /api/profile/update. */
  function Post(user: AuthUser, request: Request, backend: UpdateResult): (o: Outcome)
    ensures o.call.Some? <==> user.User? && Accepted(request, user.id)
    ensures o.call.Some? ==>
      o.call.value == UpdateCall(user.id, request.fullName, request.bio, request.avatarUrl)
    ensures o.response.status == 200 <==> o.call.Some? && backend == Updated
    ensures o.response.status == 401 <==> user == NoUser
    ensures o.response.status == 403 <==> user.User? && request.Body? && !IsOwner(request.userId, user.id)
    ensures o.response.status == 500 <==>
      || user == AuthThrows
      || (user.User? && request.MalformedBody?)
      || (o.call.Some? && backend.UpdateThrows?)
    ensures user.User? && request.Body? && IsOwner(request.userId, user.id) && LongerThan(request.fullName, 100) ==>
      o.response == Response(400, Some(FullNameTooLong), None)
    ensures (user.User? && request.Body? && IsOwner(request.userId, user.id)
             && !LongerThan(request.fullName, 100) && LongerThan(request.bio, 500)) ==>
      o.response == Response(400, Some(BioTooLong), None)
    ensures o.call.Some? && backend.UpdateError? ==> o.response == Response(400, Some(backend.message), None)
    ensures o.response.status in {200, 400, 401, 403, 500}
  {
    match user
    case AuthThrows => Outcome(None, Response(500, Some(InternalMessage), None))
    case NoUser => Outcome(None, Response(401, Some(NotAuthenticated), None))
    case User(id) =>
      match request
      case MalformedBody => Outcome(None, Response(500, Some(InternalMessage), None))
      case Body(userId, fullName, bio, avatarUrl) =>
        if !IsOwner(userId, id) then
          Outcome(None, Response(403, Some(NotOwner), None))
        else if LongerThan(fullName, 100) then
          Outcome(None, Response(400, Some(FullNameTooLong), None))
        else if LongerThan(bio, 500) then
          Outcome(None, Response(400, Some(BioTooLong), None))
        else
          var call := Some(UpdateCall(id, fullName, bio, avatarUrl));
          match backend
          case UpdateThrows => Outcome(call, Response(500, Some(InternalMessage), None))
          case UpdateError(message) => Outcome(call, Response(400, Some(message), None))
          case Updated => Outcome(call, Response(200, None, Some(UpdatedMessage)))
  }

  /** Without a user the answer is 401 whatever the body is, even an unparsable one. */
  lemma UnauthenticatedFirst(request: Request, backend: UpdateResult)
    ensures Post(NoUser, request, backend) == Outcome(None, Response(401, Some(NotAuthenticated), None))
  {
  }

  /** Another user's id in the body gives 403, before any length check. */
  lemma OwnershipBeforeLengths(id: string, userId: Value, fullName: Value, bio: Value, avatarUrl: Value, backend: UpdateResult)
    requires userId != Str(id)
    ensures Post(User(id), Body(userId, fullName, bio, avatarUrl), backend).response.status == 403
  {
  }

  /** null, empty and non-string names and bios are never rejected for length. */
  lemma NonStringFieldsSkipLengthChecks(id: string, fullName: Value, bio: Value, avatarUrl: Value, backend: UpdateResult)
    requires !fullName.Str? || fullName.s == ""
    requires !bio.Str? || bio.s == ""
    ensures Post(User(id), Body(Str(id), fullName, bio, avatarUrl), backend).call.Some?
  {
  }

  /** A long bio is reported only once the name passes; a long name wins. */
  lemma NameCheckedBeforeBio(id: string, fullName: Value, bio: Value, avatarUrl: Value, backend: UpdateResult)
    requires LongerThan(bio, 500)
    ensures Post(User(id), Body(Str(id), fullName, bio, avatarUrl), backend).response.error ==
      Some(if LongerThan(fullName, 100) then FullNameTooLong else BioTooLong)
  {
  }

  /** Whatever the database would answer, a rejected request gets the same response. */
  lemma RejectionIgnoresBackend(user: AuthUser, request: Request, b1: UpdateResult, b2: UpdateResult)
    requires Post(user, request, b1).call.None?
    ensures Post(user, request, b1) == Post(user, request, b2)
  {
  }

  /** A database error is reported with status 400 and the database's message. */
  lemma BackendErrorMessage(id: string, request: Request, message: string)
    requires Accepted(request, id)
    ensures Post(User(id), request, UpdateError(message)).response == Response(400, Some(message), None)
  {
  }

  /**
   * Lengths are UTF-16 code units: a name of more than 50 characters beyond
   * U+FFFF is over the 100 limit and rejected with 400.
   */
  lemma AstralNameRejected(id: string, name: string, bio: Value, avatarUrl: Value, backend: UpdateResult)
    requires |name| > 50
    requires forall k :: 0 <= k < |name| ==> name[k] as int > 0xFFFF
    ensures Post(User(id), Body(Str(id), Str(name), bio, avatarUrl), backend).response ==
      Response(400, Some(FullNameTooLong), None)
  {
    Utf16LengthOfAstral(name);
  }
}
