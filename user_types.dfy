/** The `User` and `NotificationPreferences` records and the partial-update
    (`Partial<User>`) merge used by the session store. */
module UserTypes {
  import opened Js

  datatype NotificationPreferences = NotificationPreferences(
    emailNotifications: bool,
    pushNotifications: bool,
    bidAlerts: bool,
    auctionUpdates: bool,
    marketingEmails: bool)

  /** Preferences given to a user whose profile row has none. */
  const DefaultPreferences := NotificationPreferences(true, true, true, true, false)

  datatype User = User(
    id: string,
    email: string,
    username: string,
    fullName: Option<string>,
    avatarUrl: Option<string>,
    bio: Option<string>,
    createdAt: string,
    updatedAt: string,
    phone: Option<string>,
    isVerified: bool,
    notificationPreferences: NotificationPreferences)

  /** One key of a `Partial<User>`: absent, or present with a value. */
  datatype Update<+T> = Keep | Put(value: T) {
    function Over(current: T): T {
      match this
      case Keep => current
      case Put(v) => v
    }
  }

  /** `Partial<User>`: every key optional; an optional field may be put back
      to `undefined` (`Put(None)`). */
  datatype UserPatch = UserPatch(
    id: Update<string>,
    email: Update<string>,
    username: Update<string>,
    fullName: Update<Option<string>>,
    avatarUrl: Update<Option<string>>,
    bio: Update<Option<string>>,
    createdAt: Update<string>,
    updatedAt: Update<string>,
    phone: Update<Option<string>>,
    isVerified: Update<bool>,
    notificationPreferences: Update<NotificationPreferences>)

  const EmptyPatch := UserPatch(Keep, Keep, Keep, Keep, Keep, Keep, Keep, Keep, Keep, Keep, Keep)

  /** The object keys of a `User`, and the values they hold: the record as a
      JavaScript object sees it. */
  datatype Key = Id | Email | Username | FullName | AvatarUrl | Bio
               | CreatedAt | UpdatedAt | Phone | IsVerified | Preferences

  datatype Value = Text(text: string) | OptText(opt: Option<string>)
                 | Flag(flag: bool) | Prefs(prefs: NotificationPreferences)

  /** The value `u` holds under key `k`. */
  function Field(u: User, k: Key): Value {
    match k
    case Id => Text(u.id)
    case Email => Text(u.email)
    case Username => Text(u.username)
    case FullName => OptText(u.fullName)
    case AvatarUrl => OptText(u.avatarUrl)
    case Bio => OptText(u.bio)
    case CreatedAt => Text(u.createdAt)
    case UpdatedAt => Text(u.updatedAt)
    case Phone => OptText(u.phone)
    case IsVerified => Flag(u.isVerified)
    case Preferences => Prefs(u.notificationPreferences)
  }

  /** The value patch `p` carries under key `k`, if it carries that key. */
  function PatchField(p: UserPatch, k: Key): Option<Value> {
    match k
    case Id => if p.id.Put? then Some(Text(p.id.value)) else None
    case Email => if p.email.Put? then Some(Text(p.email.value)) else None
    case Username => if p.username.Put? then Some(Text(p.username.value)) else None
    case FullName => if p.fullName.Put? then Some(OptText(p.fullName.value)) else None
    case AvatarUrl => if p.avatarUrl.Put? then Some(OptText(p.avatarUrl.value)) else None
    case Bio => if p.bio.Put? then Some(OptText(p.bio.value)) else None
    case CreatedAt => if p.createdAt.Put? then Some(Text(p.createdAt.value)) else None
    case UpdatedAt => if p.updatedAt.Put? then Some(Text(p.updatedAt.value)) else None
    case Phone => if p.phone.Put? then Some(OptText(p.phone.value)) else None
    case IsVerified => if p.isVerified.Put? then Some(Flag(p.isVerified.value)) else None
    case Preferences => if p.notificationPreferences.Put? then Some(Prefs(p.notificationPreferences.value)) else None
  }

  /** `{ ...u, ...p }` on a user and a partial user. */
  function ApplyPatch(u: User, p: UserPatch): User
  {
    User(p.id.Over(u.id), p.email.Over(u.email), p.username.Over(u.username),
         p.fullName.Over(u.fullName), p.avatarUrl.Over(u.avatarUrl), p.bio.Over(u.bio),
         p.createdAt.Over(u.createdAt), p.updatedAt.Over(u.updatedAt),
         p.phone.Over(u.phone), p.isVerified.Over(u.isVerified),
         p.notificationPreferences.Over(u.notificationPreferences))
  }

  /** Shallow merge: under every key, the merged user holds what `p` carries
      there if it carries that key, and what `u` holds otherwise. */
  lemma ApplyPatchIsSpread(u: User, p: UserPatch, k: Key)
    ensures Field(ApplyPatch(u, p), k) == PatchField(p, k).GetOr(Field(u, k))
  {
  }

  /** The key/value view loses nothing: a user is determined by its fields. */
  lemma FieldsDetermineUser(u: User, v: User)
    requires forall k :: Field(u, k) == Field(v, k)
    ensures u == v
  {
    assert Field(u, Id) == Field(v, Id);
    assert Field(u, Email) == Field(v, Email);
    assert Field(u, Username) == Field(v, Username);
    assert Field(u, FullName) == Field(v, FullName);
    assert Field(u, AvatarUrl) == Field(v, AvatarUrl);
    assert Field(u, Bio) == Field(v, Bio);
    assert Field(u, CreatedAt) == Field(v, CreatedAt);
    assert Field(u, UpdatedAt) == Field(v, UpdatedAt);
    assert Field(u, Phone) == Field(v, Phone);
    assert Field(u, IsVerified) == Field(v, IsVerified);
    assert Field(u, Preferences) == Field(v, Preferences);
  }

  /** Spreading `p` and then `q` is spreading the single patch `{ ...p, ...q }`. */
  lemma ApplyPatchComposes(u: User, p: UserPatch, q: UserPatch)
    ensures ApplyPatch(ApplyPatch(u, p), q) == ApplyPatch(u, Combine(p, q))
  {
    var lhs, rhs := ApplyPatch(ApplyPatch(u, p), q), ApplyPatch(u, Combine(p, q));
    forall k ensures Field(lhs, k) == Field(rhs, k) {
      CombineField(p, q, k);
    }
    FieldsDetermineUser(lhs, rhs);
  }

  /** `{ ...p, ...q }` on two patches. */
  function Combine(p: UserPatch, q: UserPatch): UserPatch {
    UserPatch(Later(p.id, q.id), Later(p.email, q.email), Later(p.username, q.username),
              Later(p.fullName, q.fullName), Later(p.avatarUrl, q.avatarUrl), Later(p.bio, q.bio),
              Later(p.createdAt, q.createdAt), Later(p.updatedAt, q.updatedAt),
              Later(p.phone, q.phone), Later(p.isVerified, q.isVerified),
              Later(p.notificationPreferences, q.notificationPreferences))
  }

  function Later<T>(a: Update<T>, b: Update<T>): Update<T> {
    if b.Put? then b else a
  }

  lemma CombineField(p: UserPatch, q: UserPatch, k: Key)
    ensures PatchField(Combine(p, q), k) == if PatchField(q, k).Some? then PatchField(q, k) else PatchField(p, k)
  {
  }

  /** Spreading an empty patch changes nothing. */
  lemma EmptyPatchIsIdentity(u: User)
    ensures ApplyPatch(u, EmptyPatch) == u
  {
  }

  /** Spreading the same patch twice is the same as spreading it once. */
  lemma ApplyPatchIdempotent(u: User, p: UserPatch)
    ensures ApplyPatch(ApplyPatch(u, p), p) == ApplyPatch(u, p)
  {
  }

  /** Updating only `bio` leaves every other key identical. */
  lemma BioOnlyPatch(u: User, bio: Option<string>)
    ensures var r := ApplyPatch(u, EmptyPatch.(bio := Put(bio)));
            r.bio == bio && r.(bio := u.bio) == u
  {
  }
}
