/**
  The current-user cache that the provider component holds: the cached
  user, the authentication status, the loading flag and the last error.
  The React setters are modelled as field assignments run in order, and
  the result of the session lookup is a parameter of `RefreshUser`.
 */
module AuthContext {
  import opened Types
  import AuthService

  datatype AuthStatus = Unauthenticated | Authenticated

  /** The identity the cache falls back to whenever no session user is found. */
  const DEFAULT_USER: User := User(
    "pro-trader-001",
    "trader@foreximf.pro",
    "VIP PRO TRADER",
    "protrader",
    "081234567890",
    true,
    true,
    130000000,
    [],
    Some("https://images.unsplash.com/photo-1560250097-0b93528c311a?auto=format&fit=crop&q=80&w=200"))

  /**
    `{ ...prev, ...patch }`: every field the patch holds overwrites the
    user's, every other field is kept.
   */
  function Merge(u: User, p: UserPatch): (r: User)
    ensures r.id == p.id.GetOr(u.id)
    ensures r.email == p.email.GetOr(u.email)
    ensures r.fullName == p.fullName.GetOr(u.fullName)
    ensures r.username == p.username.GetOr(u.username)
    ensures r.phoneNumber == p.phoneNumber.GetOr(u.phoneNumber)
    ensures r.isAdmin == p.isAdmin.GetOr(u.isAdmin)
    ensures r.isVerified == p.isVerified.GetOr(u.isVerified)
    ensures r.balance == p.balance.GetOr(u.balance)
    ensures r.notifications == p.notifications.GetOr(u.notifications)
    ensures p.profilePictureUrl.Some? ==> r.profilePictureUrl == p.profilePictureUrl
    ensures p.profilePictureUrl.None? ==> r.profilePictureUrl == u.profilePictureUrl
  {
    User(
      p.id.GetOr(u.id),
      p.email.GetOr(u.email),
      p.fullName.GetOr(u.fullName),
      p.username.GetOr(u.username),
      p.phoneNumber.GetOr(u.phoneNumber),
      p.isAdmin.GetOr(u.isAdmin),
      p.isVerified.GetOr(u.isVerified),
      p.balance.GetOr(u.balance),
      p.notifications.GetOr(u.notifications),
      if p.profilePictureUrl.Some? then p.profilePictureUrl else u.profilePictureUrl)
  }

  /** Merging the empty patch keeps the user. */
  lemma MergeEmpty(u: User)
    ensures Merge(u, EMPTY_PATCH) == u
  {
  }

  /** Merging the same patch twice is merging it once. */
  lemma MergeIdempotent(u: User, p: UserPatch)
    ensures Merge(Merge(u, p), p) == Merge(u, p)
  {
  }

  /** A patch without id, email, username, admin flag and balance keeps those fields of the user. */
  lemma MergeOfProfileFieldsKeepsIdentity(u: User, p: UserPatch)
    requires p.id.None? && p.email.None? && p.username.None? && p.isAdmin.None? && p.balance.None?
    ensures var r := Merge(u, p);
            r.id == u.id && r.email == u.email && r.username == u.username &&
            r.isAdmin == u.isAdmin && r.balance == u.balance
  {
  }

  class AuthProvider {
    var user: Option<User>
    var status: AuthStatus
    var isLoading: bool
    var error: Option<string>

    /** Every state the provider reaches has a user. */
    ghost predicate Valid()
      reads this
    {
      user.Some?
    }

    /** The initial state: the default identity, authenticated, not loading. */
    constructor ()
      ensures Valid()
      ensures user == Some(DEFAULT_USER) && status == Authenticated && !isLoading && error.None?
      ensures user.value.isAdmin && user.value.isVerified && user.value.balance == 130000000
    {
      user := Some(DEFAULT_USER);
      status := Authenticated;
      isLoading := false;
      error := None;
    }

    /**
      Replace the cached user with the session lookup's result (`fetched`),
      or with the default identity when there is none; the cache always ends
      authenticated and not loading.
     */
    method RefreshUser(fetched: Option<User>)
      modifies this
      ensures Valid()
      ensures fetched.Some? ==> user == fetched
      ensures fetched.None? ==> user == Some(DEFAULT_USER)
      ensures status == Authenticated && !isLoading
      ensures error == old(error)
    {
      isLoading := true;
      if fetched.Some? {
        user := fetched;
      } else {
        user := Some(DEFAULT_USER);
      }
      status := Authenticated;
      isLoading := false;
    }

    /**
      Merge `patch` into the cached user. With a user this succeeds and
      clears the loading flag; without one it fails and the loading flag,
      already raised, stays raised. The error is cleared either way.
     */
    method UpdateProfile(patch: UserPatch) returns (ok: bool)
      modifies this
      ensures ok <==> old(user).Some?
      ensures old(user).Some? ==> user == Some(Merge(old(user).value, patch)) && !isLoading
      ensures old(user).None? ==> user.None? && isLoading
      ensures error.None? && status == old(status)
      ensures old(Valid()) ==> Valid() && ok
    {
      isLoading := true;
      error := None;
      if user.None? {
        return false;
      }
      user := Some(Merge(user.value, patch));
      isLoading := false;
      return true;
    }

    /** Sign-in is bypassed: it always succeeds and changes nothing. */
    method Login(identifier: string, passwordAttempt: string) returns (ok: bool)
      ensures ok
    {
      ok := true;
    }

    /** Sign-up is bypassed: it always succeeds and changes nothing. */
    method Register(userData: AuthService.Registration) returns (ok: bool)
      ensures ok
    {
      ok := true;
    }

    /** Sign-out is disabled: it changes nothing. */
    method Logout()
      ensures unchanged(this)
    {
    }

    /** Email verification always succeeds and changes nothing. */
    method VerifyEmail(email: string) returns (ok: bool)
      ensures ok
    {
      ok := true;
    }
  }

  /**
    A refresh from a session lookup: whatever the backend replies, the cache
    ends with a user, authenticated and not loading, with its error kept;
    a successful lookup puts the looked-up user (with its notifications)
    into the cache, and a failed lookup leaves the default identity.
   */
  method RefreshFromSession(
    provider: AuthProvider,
    session: Reply<Option<AuthUser>>,
    profile: Reply<ProfileRow>,
    notifications: Reply<seq<Notification>>)
    modifies provider
    ensures provider.Valid() && provider.status == Authenticated && !provider.isLoading
    ensures provider.user != Some(DEFAULT_USER) ==>
              session.Data? && session.value.Some? && provider.user.value.id == session.value.value.id
    ensures !(session.Data? && session.value.Some? && profile.Data? && !notifications.Threw?) ==>
              provider.user == Some(DEFAULT_USER)
    ensures session.Data? && session.value.Some? && profile.Data? && !notifications.Threw? ==>
              && provider.user.Some?
              && provider.user.value.(notifications := []) == AuthService.MapProfileToUser(profile.value, session.value.value)
              && provider.user.value.notifications == (if notifications.Data? then notifications.value else [])
    ensures provider.error == old(provider.error)
  {
    var current := AuthService.GetCurrentUser(session, profile, notifications);
    provider.RefreshUser(current);
  }
}
