/** The session provider: the current session, the signed-in user's profile
    (read, or created on first sign-in) and a loading flag. */
module Auth {
  import opened Types
  import opened Text
  import opened Backend

  /** What the auth service knows of a signed-in user. */
  datatype SessionUser = SessionUser(
    id: Id,
    email: Option<string>,
    metaFullName: Option<string>,
    metaAvatarUrl: Option<string>)

  datatype Session = Session(user: Option<SessionUser>)

  /** The response of the profile read: a row, an error code, or neither. */
  datatype ProfileResponse = ProfileResponse(data: Option<User>, errorCode: Option<string>)

  /** The error code of a single-row read that found no row. */
  const NotFoundCode: string := "PGRST116"

  datatype ProfileStep = KeepUser | UseRow(row: User) | CreateProfile

  /** What the profile read leads to: any error other than "no row" is only
      logged, a row becomes the user, and otherwise the profile is created. */
  function ProfileDecision(response: ProfileResponse): (step: ProfileStep)
    ensures step.KeepUser? <==> response.errorCode.Some? && response.errorCode.value != NotFoundCode
    ensures step.UseRow? <==> !step.KeepUser? && response.data.Some?
    ensures step.UseRow? ==> response.data == Some(step.row)
    ensures response.errorCode == Some(NotFoundCode) && response.data.None? ==> step.CreateProfile?
  {
    if response.errorCode.Some? && response.errorCode.value != NotFoundCode then KeepUser
    else if response.data.Some? then UseRow(response.data.value)
    else CreateProfile
  }

  /** `full_name || email?.split('@')[0] || 'User'`: the metadata name when it
      is non-empty, else the part of the email before the first '@' when that
      is non-empty, else "User". */
  function DisplayName(metaFullName: Option<string>, email: Option<string>): (r: string)
    ensures r != ""
    ensures metaFullName.Some? && metaFullName.value != "" ==> r == metaFullName.value
    ensures (metaFullName.None? || metaFullName.value == "") ==>
      r == (if email.Some? && BeforeFirst(email.value, '@') != "" then BeforeFirst(email.value, '@') else "User")
  {
    if metaFullName.Some? && metaFullName.value != "" then metaFullName.value
    else if email.Some? && BeforeFirst(email.value, '@') != "" then BeforeFirst(email.value, '@')
    else "User"
  }

  /** Without a metadata name, an address `local@domain` yields `local`. */
  lemma DisplayNameOfAddress(local: string, domain: string)
    requires local != "" && '@' !in local
    ensures DisplayName(None, Some(local + "@" + domain)) == local
    ensures DisplayName(Some(""), Some(local + "@" + domain)) == local
  {
    BeforeFirstOfJoin(local, '@', domain);
  }

  /** The profile row inserted for a signed-in user who has none. */
  function ProfileDraft(userId: Id, su: SessionUser): UserDraft {
    UserDraft(userId, su.email, DisplayName(su.metaFullName, su.email), su.metaAvatarUrl)
  }

  class AuthProvider {
    var session: Option<Session>
    var user: Option<User>
    var loading: bool

    constructor ()
      ensures session.None? && user.None? && loading
    {
      session := None;
      user := None;
      loading := true;
    }

    /** What one profile fetch did: `response` is the profile read and
        `current` what the second session request returned. */
    twostate predicate ProfileFetched(userId: Id, response: ProfileResponse, current: Option<Session>, store: Store)
      reads this, store
    {
      && old(store.log) <= store.log
      && var sent := store.log[|old(store.log)|..];
      match ProfileDecision(response)
      case KeepUser => sent == [] && user == old(user)
      case UseRow(row) => sent == [] && user == Some(row)
      case CreateProfile =>
        if current.None? || current.value.user.None? then sent == [] && user == old(user)
        else
          && |sent| == 1
          && sent[0].request == InsertUser(ProfileDraft(userId, current.value.user.value))
          && (sent[0].outcome.Failure? ==> user == old(user))
          && (sent[0].outcome.Success? ==>
                user.Some? && user.value.id == userId
                && user.value.fullName == DisplayName(current.value.user.value.metaFullName, current.value.user.value.email)
                && user.value.avatarUrl == current.value.user.value.metaAvatarUrl)
    }

    /** Reads the profile; a missing one is created once from the session's
        metadata, with no retry when the create fails. */
    method FetchUserProfile(userId: Id, response: ProfileResponse, current: Option<Session>, store: Store)
      modifies this`user, store`log
      ensures ProfileFetched(userId, response, current, store)
    {
      match ProfileDecision(response)
      case KeepUser =>
      case UseRow(row) =>
        user := Some(row);
      case CreateProfile =>
        if current.Some? && current.value.user.Some? {
          var outcome, row := store.CreateUser(ProfileDraft(userId, current.value.user.value));
          if outcome.Success? {
            user := row;
          }
        }
    }

    /** The initial session request: the session is stored, the profile is
        fetched only when the session has a user, and loading ends. */
    method FetchSession(s: Option<Session>, response: ProfileResponse, current: Option<Session>, store: Store)
      modifies this`session, this`user, this`loading, store`log
      ensures session == s && !loading
      ensures s.None? || s.value.user.None? ==> user == old(user) && store.log == old(store.log)
      ensures s.Some? && s.value.user.Some? ==> ProfileFetched(s.value.user.value.id, response, current, store)
    {
      session := s;
      if s.Some? && s.value.user.Some? {
        FetchUserProfile(s.value.user.value.id, response, current, store);
      }
      loading := false;
    }

    /** An auth state change: as the initial request, except that a session
        without a user signs the user out locally. */
    method OnAuthStateChange(s: Option<Session>, response: ProfileResponse, current: Option<Session>, store: Store)
      modifies this`session, this`user, this`loading, store`log
      ensures session == s && !loading
      ensures s.None? || s.value.user.None? ==> user.None? && store.log == old(store.log)
      ensures s.Some? && s.value.user.Some? ==> ProfileFetched(s.value.user.value.id, response, current, store)
    {
      session := s;
      if s.Some? && s.value.user.Some? {
        FetchUserProfile(s.value.user.value.id, response, current, store);
      } else {
        user := None;
      }
      loading := false;
    }

    /** Signs out with the auth service, then clears session and user. */
    method SignOut(store: Store)
      modifies this`session, this`user, store`log
      ensures session.None? && user.None?
      ensures |store.log| == |old(store.log)| + 1 && store.log[..|old(store.log)|] == old(store.log)
      ensures store.log[|old(store.log)|].request == Request.SignOut
    {
      var _ := store.Send(Request.SignOut);
      session := None;
      user := None;
    }
  }
}
