/**
  The account service: the mapping between `profiles` rows and `User`
  values, the rows written when an account is created, the branch logic of
  sign-up, sign-in and session lookup over the hosted backend's replies,
  the admin listing, and the partial profile update.

  Every call to the hosted backend is a parameter holding its reply; the
  writes an operation issues are returned as a log of `Call`s, so that what
  is (and is not) written can be stated.
 */
module AuthService {
  import opened Types

  /** A write issued to the hosted backend. */
  datatype Call =
    | SignUp(email: string, password: string)
    | InsertProfile(row: ProfileRow)
    | UpdateProfileRow(id: string, updates: map<Column, Value>)
    | InsertNotification(record: NotificationRecord)

  /** The columns of the `profiles` table. */
  datatype Column = Id | Email | FullName | Username | PhoneNumber | IsAdmin | IsVerified | Balance | ProfilePictureUrl

  /** A value written into one column. */
  datatype Value = Text(text: string) | Flag(flag: bool) | Amount(amount: int)

  /** The record appended to the `notifications` table. */
  datatype NotificationRecord = NotificationRecord(userId: string, message: string, date: string, read: bool)

  /** What the self-service sign-up form hands in. */
  datatype Registration = Registration(email: string, password: string, fullName: string, phoneNumber: string)

  /** What the admin panel hands in when it creates an account. */
  datatype AdminRegistration = AdminRegistration(
    email: string,
    password: string,
    fullName: string,
    phoneNumber: string,
    isAdmin: Option<bool>,
    isVerified: Option<bool>,
    balance: Option<int>,
    profilePictureUrl: Option<string>)

  /** The `{ user, error }` pair of sign-up, with the writes it issued. */
  datatype SignUpResult = SignUpResult(user: Option<User>, error: Option<string>, calls: seq<Call>)

  /** The `{ user, error }` pair of sign-in. */
  datatype LoginResult = LoginResult(user: Option<User>, error: Option<string>)

  /** The user admin account creation resolves with, and the writes it issued. */
  datatype AdminCreated = AdminCreated(user: Option<User>, calls: seq<Call>)

  const STARTING_BALANCE: int := 13000000
  const NO_AUTH_USER_MESSAGE: string := "Gagal membuat akun autentikasi."
  const PROFILE_NOT_SAVED_PREFIX: string := "Akun terbuat tapi profil gagal disimpan: "
  const SIGN_UP_FAILED_MESSAGE: string := "Terjadi kesalahan sistem saat pendaftaran."
  const USER_NOT_FOUND_MESSAGE: string := "User tidak ditemukan."
  const PROFILE_NOT_FOUND_MESSAGE: string := "Profil data tidak ditemukan di database."

  /** The only columns a partial profile update may write. */
  const UPDATABLE: set<Column> := {FullName, PhoneNumber, ProfilePictureUrl, IsVerified}

  // ---------------------------------------------------------------------
  // Row -> User

  /**
    A `profiles` row and the auth identity it belongs to, as a `User`.
    The id is the auth identity's; every text column falls back to the
    empty string (email first to the identity's email), the flags to false,
    the balance to 0, and the notification feed starts empty.
   */
  function MapProfileToUser(profile: ProfileRow, authUser: AuthUser): (u: User)
    ensures u.id == authUser.id
    ensures Truthy(profile.email) ==> u.email == profile.email.value
    ensures !Truthy(profile.email) && Truthy(authUser.email) ==> u.email == authUser.email.value
    ensures !Truthy(profile.email) && !Truthy(authUser.email) ==> u.email == ""
    ensures u.fullName == "" <==> !Truthy(profile.full_name)
    ensures u.username == "" <==> !Truthy(profile.username)
    ensures u.phoneNumber == "" <==> !Truthy(profile.phone_number)
    ensures Truthy(profile.full_name) ==> u.fullName == profile.full_name.value
    ensures Truthy(profile.username) ==> u.username == profile.username.value
    ensures Truthy(profile.phone_number) ==> u.phoneNumber == profile.phone_number.value
    ensures u.isAdmin <==> profile.is_admin == Some(true)
    ensures u.isVerified <==> profile.is_verified == Some(true)
    ensures profile.balance.None? ==> u.balance == 0
    ensures profile.balance.Some? ==> u.balance == profile.balance.value
    ensures u.notifications == []
    ensures u.profilePictureUrl == profile.profile_picture_url
  {
    User(
      authUser.id,
      Or(profile.email, Or(authUser.email, "")),
      Or(profile.full_name, ""),
      Or(profile.username, ""),
      Or(profile.phone_number, ""),
      profile.is_admin.GetOr(false),
      profile.is_verified.GetOr(false),
      profile.balance.GetOr(0),
      [],
      profile.profile_picture_url)
  }

  /** The row's own id never reaches the mapped user. */
  lemma MapIgnoresRowId(profile: ProfileRow, authUser: AuthUser, otherId: string)
    ensures MapProfileToUser(profile.(id := otherId), authUser) == MapProfileToUser(profile, authUser)
  {
  }

  // ---------------------------------------------------------------------
  // Username derivation: `email.split('@')[0].toLowerCase()`

  /** `s.split(sep)[0]`: the text before the first `sep`, or all of `s`. */
  function TakeUntil(s: string, sep: char): (r: string)
    ensures r <= s
    ensures sep !in r
    ensures |r| < |s| ==> s[|r|] == sep
  {
    if s == [] || s[0] == sep then [] else [s[0]] + TakeUntil(s[1..], sep)
  }

  /** Lower-cases one ASCII letter and leaves every other character alone. */
  function LowerChar(c: char): char {
    if 'A' <= c <= 'Z' then (c as int + 32) as char else c
  }

  predicate IsUpper(c: char) {
    'A' <= c <= 'Z'
  }

  /** `s.toLowerCase()` on ASCII letters. */
  function ToLower(s: string): (r: string)
    ensures |r| == |s|
    ensures forall i :: 0 <= i < |s| ==> r[i] == LowerChar(s[i])
  {
    if s == [] then [] else [LowerChar(s[0])] + ToLower(s[1..])
  }

  /**
    The username both account-creation paths derive from an email: the
    lower-cased text before its first '@'. It holds no '@' and no upper-case
    letter, and it is the email's prefix up to the first '@', lower-cased.
   */
  function DeriveUsername(email: string): (r: string)
    ensures '@' !in r
    ensures forall i :: 0 <= i < |r| ==> !IsUpper(r[i])
    ensures |r| <= |email|
    ensures forall i :: 0 <= i < |r| ==> r[i] == LowerChar(email[i]) && email[i] != '@'
    ensures |r| < |email| ==> email[|r|] == '@'
  {
    var local := TakeUntil(email, '@');
    assert forall i :: 0 <= i < |local| ==> local[i] == email[i];
    var r := ToLower(local);
    assert forall i :: 0 <= i < |r| ==> r[i] != '@' by {
      forall i | 0 <= i < |r| ensures r[i] != '@' {
        assert local[i] in local;
      }
    }
    r
  }

  /** For an address `local@domain` whose local part has no '@', the username is the lower-cased local part. */
  lemma UsernameOfAddress(local: string, domain: string)
    requires '@' !in local
    ensures DeriveUsername(local + ['@'] + domain) == ToLower(local)
  {
    var email := local + ['@'] + domain;
    var t := TakeUntil(email, '@');
    assert email[|local|] == '@';
    assert t == email[..|t|] == local;
  }

  /** Text without the separator comes back whole. */
  lemma TakeUntilAbsent(s: string, sep: char)
    requires sep !in s
    ensures TakeUntil(s, sep) == s
  {
  }

  /** Deriving a username from a derived username changes nothing. */
  lemma UsernameIdempotent(email: string)
    ensures DeriveUsername(DeriveUsername(email)) == DeriveUsername(email)
  {
    TakeUntilAbsent(DeriveUsername(email), '@');
  }

  // ---------------------------------------------------------------------
  // Rows written on account creation

  /**
    The row self-service sign-up inserts: keyed by the new auth id, with the
    derived username, no admin right, not verified, and the starting balance.
   */
  function RegisterProfileRow(userId: string, data: Registration): (row: ProfileRow)
    ensures row.id == userId
    ensures row.email == Some(data.email)
    ensures row.full_name == Some(data.fullName)
    ensures row.username == Some(DeriveUsername(data.email))
    ensures row.phone_number == Some(data.phoneNumber)
    ensures row.is_admin == Some(false) && row.is_verified == Some(false)
    ensures row.balance == Some(STARTING_BALANCE)
    ensures row.profile_picture_url.None?
  {
    ProfileRow(userId, Some(data.email), Some(data.fullName), Some(DeriveUsername(data.email)),
               Some(data.phoneNumber), Some(false), Some(false), Some(STARTING_BALANCE), None)
  }

  /**
    The row admin account creation inserts: the flags and the balance come
    from the form, defaulting to false and 0; the picture URL is not written.
   */
  function AdminProfileRow(userId: string, data: AdminRegistration): (row: ProfileRow)
    ensures row.id == userId
    ensures row.email == Some(data.email)
    ensures row.full_name == Some(data.fullName)
    ensures row.username == Some(DeriveUsername(data.email))
    ensures row.phone_number == Some(data.phoneNumber)
    ensures row.is_admin == Some(data.isAdmin.Some? && data.isAdmin.value)
    ensures row.is_verified == Some(data.isVerified.Some? && data.isVerified.value)
    ensures row.balance == Some(if data.balance.Some? then data.balance.value else 0)
    ensures row.profile_picture_url.None?
  {
    ProfileRow(userId, Some(data.email), Some(data.fullName), Some(DeriveUsername(data.email)),
               Some(data.phoneNumber), Some(data.isAdmin.GetOr(false)), Some(data.isVerified.GetOr(false)),
               Some(data.balance.GetOr(0)), None)
  }

  /** Both creation paths give the same email the same username. */
  lemma SameUsernameRule(userId: string, data: Registration, adminData: AdminRegistration)
    requires data.email == adminData.email
    ensures RegisterProfileRow(userId, data).username == AdminProfileRow(userId, adminData).username
  {
  }

  // ---------------------------------------------------------------------
  // Sign-up, sign-in, session lookup

  /**
    Self-service sign-up: create the auth identity (`signUp` is its reply),
    then insert the profile row (`insert` is the reply to the insert).
   */
  function Register(data: Registration, signUp: Reply<Option<AuthUser>>, insert: Reply<ProfileRow>): (r: SignUpResult)
    // the identity is always requested first, and only then is a row written
    ensures 1 <= |r.calls| <= 2 && r.calls[0] == SignUp(data.email, data.password)
    // no identity: no user, no insert
    ensures signUp.Failed? ==> r == SignUpResult(None, Some(signUp.message), [SignUp(data.email, data.password)])
    ensures signUp == Data(None) ==> r == SignUpResult(None, Some(NO_AUTH_USER_MESSAGE), [SignUp(data.email, data.password)])
    ensures signUp.Threw? ==> r == SignUpResult(None, Some(Or(Some(signUp.message), SIGN_UP_FAILED_MESSAGE)), [SignUp(data.email, data.password)])
    // an identity: exactly one insert, of the sign-up row keyed by its id
    ensures |r.calls| == 2 <==> signUp.Data? && signUp.value.Some?
    ensures |r.calls| == 2 ==> r.calls[1] == InsertProfile(RegisterProfileRow(signUp.value.value.id, data))
    // a failed insert is reported but the identity is not undone
    ensures |r.calls| == 2 && insert.Failed? ==>
              r.user.None? && r.error == Some(PROFILE_NOT_SAVED_PREFIX + insert.message)
    ensures |r.calls| == 2 && insert.Threw? ==>
              r.user.None? && r.error == Some(Or(Some(insert.message), SIGN_UP_FAILED_MESSAGE))
    // success exactly when both steps succeed, and then the user is the stored row's
    ensures r.user.Some? <==> |r.calls| == 2 && insert.Data?
    ensures r.user.Some? ==> r.error.None? && r.user.value == MapProfileToUser(insert.value, signUp.value.value)
    ensures r.user.None? ==> r.error.Some?
  {
    var first := [SignUp(data.email, data.password)];
    match signUp
    case Failed(m) => SignUpResult(None, Some(m), first)
    case Threw(m) => SignUpResult(None, Some(Or(Some(m), SIGN_UP_FAILED_MESSAGE)), first)
    case Data(None) => SignUpResult(None, Some(NO_AUTH_USER_MESSAGE), first)
    case Data(Some(authUser)) =>
      var calls := first + [InsertProfile(RegisterProfileRow(authUser.id, data))];
      match insert
      case Failed(m) => SignUpResult(None, Some(PROFILE_NOT_SAVED_PREFIX + m), calls)
      case Threw(m) => SignUpResult(None, Some(Or(Some(m), SIGN_UP_FAILED_MESSAGE)), calls)
      case Data(profile) => SignUpResult(Some(MapProfileToUser(profile, authUser)), None, calls)
  }

  /**
    When the store hands back the row sign-up inserted, the new user has the
    auth id, the form's name and phone, the derived username, no admin
    right, is not verified, holds the starting balance and has no notifications.
   */
  lemma RegisterStoresNewUser(data: Registration, authUser: AuthUser)
    requires data.email != ""
    ensures var r := Register(data, Data(Some(authUser)), Data(RegisterProfileRow(authUser.id, data)));
            r.user.Some? && r.error.None? &&
            r.user.value == User(authUser.id, data.email, data.fullName, DeriveUsername(data.email),
                                 data.phoneNumber, false, false, STARTING_BALANCE, [], None)
  {
  }

  /**
    Admin account creation: like sign-up, but every failure resolves with
    null, and the row takes its flags and balance from the form.
   */
  function AdminCreateUser(data: AdminRegistration, signUp: Reply<Option<AuthUser>>, insert: Reply<ProfileRow>): (r: AdminCreated)
    ensures 1 <= |r.calls| <= 2 && r.calls[0] == SignUp(data.email, data.password)
    ensures |r.calls| == 2 <==> signUp.Data? && signUp.value.Some?
    ensures |r.calls| == 2 ==> r.calls[1] == InsertProfile(AdminProfileRow(signUp.value.value.id, data))
    ensures r.user.Some? <==> |r.calls| == 2 && insert.Data?
    ensures r.user.Some? ==> r.user.value == MapProfileToUser(insert.value, signUp.value.value)
  {
    var first := [SignUp(data.email, data.password)];
    if !signUp.Data? || signUp.value.None? then
      AdminCreated(None, first)
    else
      var authUser := signUp.value.value;
      var calls := first + [InsertProfile(AdminProfileRow(authUser.id, data))];
      if insert.Data? then AdminCreated(Some(MapProfileToUser(insert.value, authUser)), calls)
      else AdminCreated(None, calls)
  }

  /**
    Sign-in: check the credentials (`signIn` is the auth reply), then read
    the profile row of the identity (`profile` is the reply to that read).
   */
  function Login(signIn: Reply<Option<AuthUser>>, profile: Reply<ProfileRow>): (r: LoginResult)
    ensures signIn.Failed? ==> r == LoginResult(None, Some(signIn.message))
    ensures signIn == Data(None) ==> r == LoginResult(None, Some(USER_NOT_FOUND_MESSAGE))
    ensures signIn.Data? && signIn.value.Some? && profile.Failed? ==>
              r == LoginResult(None, Some(PROFILE_NOT_FOUND_MESSAGE))
    ensures signIn.Threw? ==> r == LoginResult(None, Some(signIn.message))
    ensures signIn.Data? && signIn.value.Some? && profile.Threw? ==>
              r == LoginResult(None, Some(profile.message))
    ensures r.user.Some? <==> signIn.Data? && signIn.value.Some? && profile.Data?
    ensures r.user.Some? ==> r.error.None? && r.user.value == MapProfileToUser(profile.value, signIn.value.value)
    ensures r.user.None? ==> r.error.Some?
  {
    match signIn
    case Failed(m) => LoginResult(None, Some(m))
    case Threw(m) => LoginResult(None, Some(m))
    case Data(None) => LoginResult(None, Some(USER_NOT_FOUND_MESSAGE))
    case Data(Some(authUser)) =>
      match profile
      case Failed(_) => LoginResult(None, Some(PROFILE_NOT_FOUND_MESSAGE))
      case Threw(m) => LoginResult(None, Some(m))
      case Data(row) => LoginResult(Some(MapProfileToUser(row, authUser)), None)
  }

  /**
    The current user: the session's identity (`session`), its profile row
    (`profile`; an error reply leaves the row null) and its notifications,
    newest first (`notifications`; an error reply leaves them null).
   */
  method GetCurrentUser(session: Reply<Option<AuthUser>>, profile: Reply<ProfileRow>, notifications: Reply<seq<Notification>>)
    returns (r: Option<User>)
    ensures r.Some? <==> session.Data? && session.value.Some? && profile.Data? && !notifications.Threw?
    ensures r.Some? ==> r.value.notifications == (if notifications.Data? then notifications.value else [])
    ensures r.Some? ==> r.value.(notifications := []) == MapProfileToUser(profile.value, session.value.value)
  {
    if !session.Data? || session.value.None? {
      return None;
    }
    var authUser := session.value.value;
    if !profile.Data? {
      return None;
    }
    if notifications.Threw? {
      return None;
    }
    var user := MapProfileToUser(profile.value, authUser);
    user := user.(notifications := if notifications.Data? then notifications.value else []);
    return Some(user);
  }

  // ---------------------------------------------------------------------
  // Admin listing

  /** One row as the admin listing maps it: raw columns, email defaulted to "". */
  function ListUser(row: ProfileRow): (u: ListedUser)
    ensures u.id == row.id
    ensures u.email == Or(row.email, "")
    ensures u.fullName == row.full_name && u.username == row.username && u.phoneNumber == row.phone_number
    ensures u.isAdmin == row.is_admin && u.isVerified == row.is_verified && u.balance == row.balance
    ensures u.notifications == []
    ensures u.profilePictureUrl == row.profile_picture_url
  {
    ListedUser(row.id, Or(row.email, ""), row.full_name, row.username, row.phone_number,
               row.is_admin, row.is_verified, row.balance, [], row.profile_picture_url)
  }

  /** `profiles.map(...)`: one listed user per row, in row order. */
  function ListUsers(rows: seq<ProfileRow>): (r: seq<ListedUser>)
    ensures |r| == |rows|
    ensures forall i :: 0 <= i < |rows| ==> r[i] == ListUser(rows[i])
  {
    if rows == [] then [] else [ListUser(rows[0])] + ListUsers(rows[1..])
  }

  /**
    All users. A store error resolves with the empty list, indistinguishable
    from a store with no rows; an exception rejects.
   */
  function GetAllUsers(reply: Reply<seq<ProfileRow>>): (r: Result<seq<ListedUser>>)
    ensures reply.Failed? ==> r == Ok([])
    ensures reply.Threw? ==> r == Rejected(reply.message)
    ensures reply.Data? ==> r.Ok? && |r.value| == |reply.value|
    ensures reply.Data? ==> forall i :: 0 <= i < |reply.value| ==> r.value[i] == ListUser(reply.value[i])
  {
    match reply
    case Failed(_) => Ok([])
    case Threw(m) => Rejected(m)
    case Data(rows) => Ok(ListUsers(rows))
  }

  /** A store error and an empty table give the same listing. */
  lemma ListingErrorLooksEmpty(message: string)
    ensures GetAllUsers(Failed(message)) == GetAllUsers(Data([]))
  {
  }

  /**
    On a row whose columns are all present, the listing and the session
    mapping agree (given the row's own identity and a usable email).
   */
  lemma ListingAgreesWithMapping(row: ProfileRow, authUser: AuthUser)
    requires authUser.id == row.id
    requires row.full_name.Some? && row.username.Some? && row.phone_number.Some?
    requires row.is_admin.Some? && row.is_verified.Some? && row.balance.Some?
    requires Truthy(row.email) || !Truthy(authUser.email)
    ensures ListUser(row) == AsListed(MapProfileToUser(row, authUser))
  {
    assert Or(row.full_name, "") == row.full_name.value;
    assert Or(row.username, "") == row.username.value;
    assert Or(row.phone_number, "") == row.phone_number.value;
  }

  /**
    Unlike the session mapping, the listing has no fallback to the identity's
    email: a row with an empty or missing email lists as `""` even when the
    identity has an email.
   */
  lemma ListingIgnoresIdentityEmail(row: ProfileRow, authUser: AuthUser)
    requires !Truthy(row.email) && Truthy(authUser.email)
    ensures ListUser(row).email == ""
    ensures MapProfileToUser(row, authUser).email == authUser.email.value
    ensures ListUser(row) != AsListed(MapProfileToUser(row, authUser))
  {
  }

  // ---------------------------------------------------------------------
  // Partial profile update

  /** Whether the patch supplies column `c` to the update. */
  predicate Supplied(p: UserPatch, c: Column) {
    match c
    case FullName => Truthy(p.fullName)
    case PhoneNumber => Truthy(p.phoneNumber)
    case ProfilePictureUrl => Truthy(p.profilePictureUrl)
    case IsVerified => p.isVerified.Some?
    case _ => false
  }

  /** The value the patch supplies for column `c`. */
  function Supply(p: UserPatch, c: Column): Value
    requires Supplied(p, c)
  {
    match c
    case FullName => Text(p.fullName.value)
    case PhoneNumber => Text(p.phoneNumber.value)
    case ProfilePictureUrl => Text(p.profilePictureUrl.value)
    case IsVerified => Flag(p.isVerified.value)
  }

  /**
    The update set a patch yields: each updatable column the patch supplies,
    with the supplied value. Names, phone numbers and picture URLs count only
    when non-empty; the verified flag counts whenever present, also when false.
   */
  function UpdateSet(p: UserPatch): (u: map<Column, Value>)
    ensures u.Keys <= UPDATABLE
    ensures Balance !in u && IsAdmin !in u && Email !in u && Username !in u && Id !in u
    ensures FullName in u <==> Truthy(p.fullName)
    ensures PhoneNumber in u <==> Truthy(p.phoneNumber)
    ensures ProfilePictureUrl in u <==> Truthy(p.profilePictureUrl)
    ensures IsVerified in u <==> p.isVerified.Some?
    ensures FullName in u ==> u[FullName] == Text(p.fullName.value)
    ensures PhoneNumber in u ==> u[PhoneNumber] == Text(p.phoneNumber.value)
    ensures ProfilePictureUrl in u ==> u[ProfilePictureUrl] == Text(p.profilePictureUrl.value)
    ensures IsVerified in u ==> u[IsVerified] == Flag(p.isVerified.value)
  {
    map c | c in UPDATABLE && Supplied(p, c) :: Supply(p, c)
  }

  /**
    `updateUserInfo`: no id, no write; otherwise one update of the row with
    that id, holding the patch's update set. `reply` is the store's reply to
    the update; an error rejects.
   */
  method UpdateUserInfo(p: UserPatch, reply: Reply<()>) returns (calls: seq<Call>, r: Result<()>)
    ensures !Truthy(p.id) ==> calls == [] && r == Ok(())
    ensures Truthy(p.id) ==> calls == [UpdateProfileRow(p.id.value, UpdateSet(p))]
    ensures Truthy(p.id) ==> (r.Ok? <==> reply.Data?)
    ensures Truthy(p.id) && !reply.Data? ==> r == Rejected(reply.message)
  {
    if !Truthy(p.id) {
      return [], Ok(());
    }
    var updates: map<Column, Value> := map[];
    if Truthy(p.fullName) {
      updates := updates[FullName := Text(p.fullName.value)];
    }
    if Truthy(p.phoneNumber) {
      updates := updates[PhoneNumber := Text(p.phoneNumber.value)];
    }
    if Truthy(p.profilePictureUrl) {
      updates := updates[ProfilePictureUrl := Text(p.profilePictureUrl.value)];
    }
    if p.isVerified.Some? {
      updates := updates[IsVerified := Flag(p.isVerified.value)];
    }
    assert updates == UpdateSet(p);
    calls := [UpdateProfileRow(p.id.value, updates)];
    match reply
    case Data(_) => r := Ok(());
    case Failed(m) => r := Rejected(m);
    case Threw(m) => r := Rejected(m);
  }

  /** A text column after an update: the written text, or the old value. */
  function TextAfter(prev: Option<string>, u: map<Column, Value>, c: Column): Option<string> {
    if c in u && u[c].Text? then Some(u[c].text) else prev
  }

  function FlagAfter(prev: Option<bool>, u: map<Column, Value>, c: Column): Option<bool> {
    if c in u && u[c].Flag? then Some(u[c].flag) else prev
  }

  function AmountAfter(prev: Option<int>, u: map<Column, Value>, c: Column): Option<int> {
    if c in u && u[c].Amount? then Some(u[c].amount) else prev
  }

  /** The row after the store applies an update set to it. */
  function ApplyUpdates(row: ProfileRow, u: map<Column, Value>): ProfileRow {
    ProfileRow(
      if Id in u && u[Id].Text? then u[Id].text else row.id,
      TextAfter(row.email, u, Email),
      TextAfter(row.full_name, u, FullName),
      TextAfter(row.username, u, Username),
      TextAfter(row.phone_number, u, PhoneNumber),
      FlagAfter(row.is_admin, u, IsAdmin),
      FlagAfter(row.is_verified, u, IsVerified),
      AmountAfter(row.balance, u, Balance),
      TextAfter(row.profile_picture_url, u, ProfilePictureUrl))
  }

  /**
    A profile update through `updateUserInfo` never changes a row's id,
    email, username, admin flag or balance, and it changes the other
    columns exactly as the patch supplies them.
   */
  lemma UpdateKeepsProtectedColumns(row: ProfileRow, p: UserPatch)
    ensures var after := ApplyUpdates(row, UpdateSet(p));
            && after.id == row.id
            && after.email == row.email
            && after.username == row.username
            && after.is_admin == row.is_admin
            && after.balance == row.balance
            && after.full_name == (if Truthy(p.fullName) then p.fullName else row.full_name)
            && after.phone_number == (if Truthy(p.phoneNumber) then p.phoneNumber else row.phone_number)
            && after.profile_picture_url == (if Truthy(p.profilePictureUrl) then p.profilePictureUrl else row.profile_picture_url)
            && after.is_verified == (if p.isVerified.Some? then p.isVerified else row.is_verified)
  {
  }

  // ---------------------------------------------------------------------
  // Notifications

  /** The record `addUserNotification` appends: owned by `userId` and unread. */
  function AddUserNotification(userId: string, message: string, date: string): (c: Call)
    ensures c.InsertNotification?
    ensures c.record.userId == userId && c.record.message == message && c.record.date == date
    ensures !c.record.read
  {
    InsertNotification(NotificationRecord(userId, message, date, false))
  }
}
