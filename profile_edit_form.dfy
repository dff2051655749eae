/**
 * The profile edit form (src/components/auth/ProfileEditForm.tsx): the
 * mapping between stored profile fields and form state, the request body,
 * and the state each reply leaves.  The fetch and the reload timer are not
 * modelled; the reply is an input.
 */
module ProfileEditForm {
  import opened Wrappers
  import Json
  import ProfileUpdateRoute

  /** initialData: the stored profile fields, each possibly null. */
  datatype InitialData = InitialData(fullName: Option<string>, bio: Option<string>, avatarUrl: Option<string>)

  datatype Reply = Reply(ok: bool, error: Option<string>) | FetchThrows

  const UpdateFailed := "Failed to update profile"
  const Unexpected := "An unexpected error occurred"

  /** `value || ""`: null becomes the empty string. */
  function OrEmpty(value: Option<string>): (s: string)
    ensures value.Some? ==> s == value.value
    ensures value.None? ==> s == ""
  {
    if value.Some? then value.value else ""
  }

  /** `value || null`: the empty string is sent as null. */
  function OrNull(value: string): (v: Json.Value)
    ensures v == Json.Null <==> value == ""
    ensures v != Json.Null ==> v == Json.Str(value)
  {
    if value == "" then Json.Null else Json.Str(value)
  }

  /** A stored field as JSON. */
  function Stored(value: Option<string>): Json.Value
  {
    if value.Some? then Json.Str(value.value) else Json.Null
  }

  /**
   * Loading a stored field into the form and submitting it unchanged gives
   * it back, except a stored empty string, which comes back as null.
   */
  lemma StoredRoundTrip(value: Option<string>)
    ensures OrNull(OrEmpty(value)) == Stored(value) <==> value != Some("")
    ensures value == Some("") ==> OrNull(OrEmpty(value)) == Json.Null
  {
  }

  /** The JSON body handleSubmit posts. */
  function RequestBody(userId: string, fullName: string, bio: string, avatarUrl: string): ProfileUpdateRoute.Request
  {
    ProfileUpdateRoute.Body(Json.Str(userId), OrNull(fullName), OrNull(bio), OrNull(avatarUrl))
  }

  /**
   * A body the form posts for the signed-in user, with the input limits of
   * its fields (100 and 500 characters), passes every check of the
   * endpoint, which then updates exactly the three fields.
   */
  lemma FormBodyAccepted(userId: string, fullName: string, bio: string, avatarUrl: string, backend: ProfileUpdateRoute.UpdateResult)
    requires Json.Utf16Length(fullName) <= 100 && Json.Utf16Length(bio) <= 500
    ensures ProfileUpdateRoute.Accepted(RequestBody(userId, fullName, bio, avatarUrl), userId)
    ensures ProfileUpdateRoute.Post(ProfileUpdateRoute.User(userId), RequestBody(userId, fullName, bio, avatarUrl), backend).call
      == Some(ProfileUpdateRoute.UpdateCall(userId, OrNull(fullName), OrNull(bio), OrNull(avatarUrl)))
  {
  }

  /** The component's state. */
  class ProfileEditForm {
    const userId: string
    var fullName: string
    var bio: string
    var avatarUrl: string
    var loading: bool
    var error: Option<string>
    var success: bool

    /** The initial state: null fields become empty strings. */
    constructor (userId: string, initialData: InitialData)
      ensures this.userId == userId
      ensures fullName == OrEmpty(initialData.fullName) && bio == OrEmpty(initialData.bio)
      ensures avatarUrl == OrEmpty(initialData.avatarUrl)
      ensures !loading && error == None && !success
    {
      this.userId := userId;
      fullName := OrEmpty(initialData.fullName);
      bio := OrEmpty(initialData.bio);
      avatarUrl := OrEmpty(initialData.avatarUrl);
      loading, error, success := false, None, false;
    }

    /** handleSubmit: returns the body it posts; the fields are not changed. */
    method HandleSubmit(reply: Reply) returns (request: ProfileUpdateRoute.Request)
      modifies this`loading, this`error, this`success
      ensures request == RequestBody(userId, fullName, bio, avatarUrl)
      ensures reply.Reply? && reply.ok ==> success && !loading && error == None
      ensures reply.Reply? && !reply.ok ==>
        !success && !loading && error == Some(Json.MessageOr(reply.error, UpdateFailed))
      ensures reply.FetchThrows? ==> !success && !loading && error == Some(Unexpected)
    {
      error := None;
      success := false;
      loading := true;

      request := ProfileUpdateRoute.Body(Json.Str(userId),
        if fullName == "" then Json.Null else Json.Str(fullName),
        if bio == "" then Json.Null else Json.Str(bio),
        if avatarUrl == "" then Json.Null else Json.Str(avatarUrl));
      match reply
      case FetchThrows =>
        error := Some(Unexpected);
        loading := false;
      case Reply(ok, replyError) =>
        if !ok {
          error := Some(Json.MessageOr(replyError, UpdateFailed));
          loading := false;
          return;
        }
        success := true;
        loading := false;
    }
  }
}
