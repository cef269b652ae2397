/** The persisted authentication session store: the fields `user`,
    `isAuthenticated` and `isLoading`, and the operations `login`, `signup`,
    `logout` and `updateProfile`. Each remote call is represented by the reply
    the remote authority gives (a parameter) and by the request it was sent
    (an entry of the returned request trace). */
module AuthStore {
  import opened Js
  import opened UserTypes

  /** An error object returned by the remote authority. */
  datatype RemoteError = RemoteError(message: string)

  /** What an operation's promise settles to. */
  datatype Outcome = Resolved | Rejected(error: StoreError)

  datatype StoreError = Remote(cause: RemoteError) | UsernameTaken | NoUserLoggedIn {
    function Message(): string {
      match this
      case Remote(e) => e.message
      case UsernameTaken => "Username already taken"
      case NoUserLoggedIn => "No user logged in"
    }
  }

  /** The user object of a remote session. */
  datatype RemoteUser = RemoteUser(
    id: string,
    email: string,
    createdAt: string,
    emailConfirmedAt: Nullable<string>)

  /** The reply to sign-in-with-password: `error`, or `data.user` (possibly absent). */
  datatype SignInReply = SignInFailed(error: RemoteError) | SignedIn(user: Option<RemoteUser>)

  /** A row of the `profiles` table; a column may be null. */
  datatype ProfileRow = ProfileRow(
    username: Option<string>,
    fullName: Option<string>,
    avatarUrl: Option<string>,
    bio: Option<string>,
    updatedAt: Option<string>,
    notificationPreferences: Option<NotificationPreferences>)

  /** The requests sent to the remote authority. */
  datatype Request =
    | SignInWithPassword(email: string, password: string)
    | SelectProfileById(id: string)
    | SelectProfileByUsername(username: string)
    | SignUp(email: string, password: string, username: string)
    | SignOut
    | UpdateProfileRow(id: string, updates: UserPatch)

  /** The user `login` builds from the remote user and its profile row
      (`profile` is `None` when the row lookup gave no data). */
  function BuildUser(remote: RemoteUser, profile: Option<ProfileRow>): (u: User)
    ensures u.id == remote.id && u.email == remote.email && u.createdAt == remote.createdAt
    ensures u.isVerified <==> !remote.emailConfirmedAt.Null?
    ensures u.username == (if profile.Some? then Or(profile.value.username, "") else "")
    ensures profile.None? ==> u.updatedAt == remote.createdAt
    ensures profile.Some? ==> u.updatedAt == Or(profile.value.updatedAt, remote.createdAt)
    ensures (profile.None? || profile.value.notificationPreferences.None?) ==>
              u.notificationPreferences == DefaultPreferences
    ensures (profile.Some? && profile.value.notificationPreferences.Some?) ==>
              u.notificationPreferences == profile.value.notificationPreferences.value
    ensures profile.None? ==> u.fullName.None? && u.avatarUrl.None? && u.bio.None?
    ensures profile.Some? ==> u.fullName == profile.value.fullName && u.avatarUrl == profile.value.avatarUrl
                              && u.bio == profile.value.bio
    ensures u.phone.None?
  {
    match profile
    case None =>
      User(remote.id, remote.email, "", None, None, None, remote.createdAt, remote.createdAt,
           None, NotStrictlyNull(remote.emailConfirmedAt), DefaultPreferences)
    case Some(row) =>
      User(remote.id, remote.email, Or(row.username, ""), row.fullName, row.avatarUrl, row.bio,
           remote.createdAt, Or(row.updatedAt, remote.createdAt),
           None, NotStrictlyNull(remote.emailConfirmedAt),
           row.notificationPreferences.GetOr(DefaultPreferences))
  }

  /** The part of the state written to durable storage. */
  datatype Persisted = Persisted(user: Option<User>, isAuthenticated: bool)

  class Store {
    var user: Option<User>
    var isAuthenticated: bool
    var isLoading: bool

    /** The flag mirrors the presence of a user. */
    ghost predicate Valid()
      reads this
    {
      isAuthenticated <==> user.Some?
    }

    constructor ()
      ensures Valid()
      ensures user == None && !isAuthenticated && !isLoading
    {
      user := None;
      isAuthenticated := false;
      isLoading := false;
    }

    /** The projection kept in storage: `user` and `isAuthenticated`, never `isLoading`. */
    function Persist(): (p: Persisted)
      reads this
      ensures Valid() ==> (p.isAuthenticated <==> p.user.Some?)
    {
      Persisted(user, isAuthenticated)
    }

    method Login(email: string, password: string, signIn: SignInReply, profile: Option<ProfileRow>)
      returns (outcome: Outcome, requests: seq<Request>)
      requires Valid()
      modifies this
      ensures Valid() && !isLoading
      ensures signIn.SignInFailed? ==>
                outcome == Rejected(Remote(signIn.error)) && requests == [SignInWithPassword(email, password)]
                && user == old(user) && isAuthenticated == old(isAuthenticated)
      ensures signIn.SignedIn? && signIn.user.None? ==>
                outcome == Resolved && requests == [SignInWithPassword(email, password)]
                && user == old(user) && isAuthenticated == old(isAuthenticated)
      ensures signIn.SignedIn? && signIn.user.Some? ==>
                outcome == Resolved
                && requests == [SignInWithPassword(email, password), SelectProfileById(signIn.user.value.id)]
                && user == Some(BuildUser(signIn.user.value, profile)) && isAuthenticated
    {
      isLoading := true;
      requests := [SignInWithPassword(email, password)];
      match signIn {
        case SignInFailed(e) =>
          outcome := Rejected(Remote(e));
        case SignedIn(None) =>
          outcome := Resolved;
        case SignedIn(Some(remote)) =>
          requests := requests + [SelectProfileById(remote.id)];
          var u := BuildUser(remote, profile);
          user, isAuthenticated := Some(u), true;
          outcome := Resolved;
      }
      isLoading := false;
    }

    /** `usernameTaken`: the lookup by username returned a row;
        `signUpError`: the error of the sign-up reply, if any. */
    method Signup(email: string, password: string, username: string,
                  usernameTaken: bool, signUpError: Option<RemoteError>)
      returns (outcome: Outcome, requests: seq<Request>)
      requires Valid()
      modifies this`isLoading
      ensures Valid() && !isLoading
      ensures usernameTaken ==>
                outcome == Rejected(UsernameTaken) && requests == [SelectProfileByUsername(username)]
      ensures !usernameTaken ==>
                requests == [SelectProfileByUsername(username), SignUp(email, password, username)]
                && outcome == (if signUpError.Some? then Rejected(Remote(signUpError.value)) else Resolved)
    {
      isLoading := true;
      requests := [SelectProfileByUsername(username)];
      if usernameTaken {
        outcome := Rejected(UsernameTaken);
      } else {
        requests := requests + [SignUp(email, password, username)];
        if signUpError.Some? {
          outcome := Rejected(Remote(signUpError.value));
        } else {
          outcome := Resolved;
        }
      }
      isLoading := false;
    }

    method Logout(signOutError: Option<RemoteError>) returns (outcome: Outcome, requests: seq<Request>)
      requires Valid()
      modifies this
      ensures Valid() && !isLoading
      ensures requests == [SignOut]
      ensures signOutError.Some? ==>
                outcome == Rejected(Remote(signOutError.value))
                && user == old(user) && isAuthenticated == old(isAuthenticated)
      ensures signOutError.None? ==> outcome == Resolved && user == None && !isAuthenticated
    {
      isLoading := true;
      requests := [SignOut];
      if signOutError.Some? {
        outcome := Rejected(Remote(signOutError.value));
      } else {
        user, isAuthenticated := None, false;
        outcome := Resolved;
      }
      isLoading := false;
    }

    /** `updateError`: the error of the profile-row update reply, if any. */
    method UpdateProfile(updates: UserPatch, updateError: Option<RemoteError>)
      returns (outcome: Outcome, requests: seq<Request>)
      requires Valid()
      modifies this
      ensures Valid()
      ensures isAuthenticated == old(isAuthenticated)
      ensures old(user).None? ==>
                outcome == Rejected(NoUserLoggedIn) && requests == []
                && user == old(user) && isLoading == old(isLoading)
      ensures old(user).Some? ==>
                !isLoading && requests == [UpdateProfileRow(old(user).value.id, updates)]
      ensures old(user).Some? && updateError.Some? ==>
                outcome == Rejected(Remote(updateError.value)) && user == old(user)
      ensures old(user).Some? && updateError.None? ==>
                outcome == Resolved && user == Some(ApplyPatch(old(user).value, updates))
    {
      var current := user;
      if current.None? {
        return Rejected(NoUserLoggedIn), [];
      }
      isLoading := true;
      requests := [UpdateProfileRow(current.value.id, updates)];
      if updateError.Some? {
        outcome := Rejected(Remote(updateError.value));
      } else {
        user := Some(ApplyPatch(current.value, updates));
        outcome := Resolved;
      }
      isLoading := false;
    }
  }

  /** A first login against a remote user whose e-mail is unconfirmed and whose
      profile names "alice" but holds no preferences, then a sign-up with a
      taken username and a bio update. */
  method LoginScenario() {
    var store := new Store();
    var remote := RemoteUser("u1", "a@b.com", "2024-01-01", Null);
    var row := ProfileRow(Some("alice"), None, None, None, None, None);
    var outcome, requests := store.Login("a@b.com", "pw", SignedIn(Some(remote)), Some(row));
    assert outcome == Resolved && store.isAuthenticated && !store.isLoading;
    var u := store.user.value;
    assert u.id == "u1" && u.username == "alice" && !u.isVerified;
    assert u.notificationPreferences == DefaultPreferences;
    assert u.updatedAt == "2024-01-01";

    outcome, requests := store.Signup("c@d.com", "pw", "alice", true, None);
    assert outcome == Rejected(UsernameTaken) && |requests| == 1;
    assert store.user == Some(u);

    outcome, requests := store.UpdateProfile(EmptyPatch.(bio := Put(Some("x"))), None);
    assert store.user.value.bio == Some("x") && store.user.value.username == "alice";

    outcome, requests := store.Logout(None);
    assert store.user == None && !store.isAuthenticated;
    outcome, requests := store.UpdateProfile(EmptyPatch, None);
    assert outcome == Rejected(NoUserLoggedIn);
  }
}
