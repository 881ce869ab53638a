/**
  The entities shared by the account service and the current-user cache:
  the in-process `User`, the storage row of the `profiles` table, the
  notification record, the identity returned by the hosted auth service,
  and the replies the hosted backend gives to one call.
 */
module Types {

  datatype Option<+T> = None | Some(value: T) {
    /** The value in Some, or `default` when None. */
    function GetOr(default: T): T {
      match this
      case Some(v) => v
      case None => default
    }
  }

  /**
    The reply of one call to the hosted backend: the returned data, an error
    object handed back in the reply (`{ error }`), or an exception thrown by
    the call (`catch (e)`); `message` is the error's `message` text, and the
    empty string stands for a missing message.
   */
  datatype Reply<+T> = Data(value: T) | Failed(message: string) | Threw(message: string)

  /** The settled state of a promise: resolved with a value, or rejected. */
  datatype Result<+T> = Ok(value: T) | Rejected(message: string)

  /** The identity the auth service attaches to a session or a sign-up. */
  datatype AuthUser = AuthUser(id: string, email: Option<string>)

  /** One row of the `notifications` table. */
  datatype Notification = Notification(id: string, userId: string, message: string, date: string, read: bool)

  /** The in-process user, with the field names the UI reads. */
  datatype User = User(
    id: string,
    email: string,
    fullName: string,
    username: string,
    phoneNumber: string,
    isAdmin: bool,
    isVerified: bool,
    balance: int,
    notifications: seq<Notification>,
    profilePictureUrl: Option<string>)

  /**
    `Partial<User>`: every field optional. `Some(v)` is a field that is
    present with value `v`, `None` a field that is absent (undefined).
   */
  datatype UserPatch = UserPatch(
    id: Option<string>,
    email: Option<string>,
    fullName: Option<string>,
    username: Option<string>,
    phoneNumber: Option<string>,
    isAdmin: Option<bool>,
    isVerified: Option<bool>,
    balance: Option<int>,
    notifications: Option<seq<Notification>>,
    profilePictureUrl: Option<string>)

  const EMPTY_PATCH: UserPatch := UserPatch(None, None, None, None, None, None, None, None, None, None)

  /**
    One row of the `profiles` table, with the store's own column names.
    The key `id` is always present; every other column may be null (None).
   */
  datatype ProfileRow = ProfileRow(
    id: string,
    email: Option<string>,
    full_name: Option<string>,
    username: Option<string>,
    phone_number: Option<string>,
    is_admin: Option<bool>,
    is_verified: Option<bool>,
    balance: Option<int>,
    profile_picture_url: Option<string>)

  /**
    A user as the admin listing builds it: the columns are copied without
    fallbacks (only `email` has one), so a null column stays null (None).
   */
  datatype ListedUser = ListedUser(
    id: string,
    email: string,
    fullName: Option<string>,
    username: Option<string>,
    phoneNumber: Option<string>,
    isAdmin: Option<bool>,
    isVerified: Option<bool>,
    balance: Option<int>,
    notifications: seq<Notification>,
    profilePictureUrl: Option<string>)

  /** JavaScript truthiness of an optional string: present and not empty. */
  predicate Truthy(v: Option<string>) {
    v.Some? && v.value != ""
  }

  /** JavaScript `v || fallback` on an optional string. */
  function Or(v: Option<string>, fallback: string): (r: string)
    ensures Truthy(v) ==> r == v.value
    ensures !Truthy(v) ==> r == fallback
  {
    if Truthy(v) then v.value else fallback
  }

  /** A complete user seen through the listing's shape: every column present. */
  function AsListed(u: User): ListedUser {
    ListedUser(u.id, u.email, Some(u.fullName), Some(u.username), Some(u.phoneNumber),
               Some(u.isAdmin), Some(u.isVerified), Some(u.balance), u.notifications,
               u.profilePictureUrl)
  }
}
