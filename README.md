# Dashboard accounts and current-user cache, modelled in Dafny

This project models the account layer of a trading/wallet dashboard. The layer
has two parts:

- **The account service** (`services/authService.ts`). It maps rows of the
  hosted `profiles` table to `User` values, and derives the username from the
  email. It builds the rows written when an account is created. It holds the
  branch logic of sign-up, admin account creation, sign-in and session lookup,
  the admin listing of all users, the partial profile update and the
  notification record.
- **The current-user cache** (`context/AuthContext.tsx`). It is the state that
  the provider component holds: `user`, `status`, `isLoading` and `error`. It
  falls back to a built-in default identity, and it merges profile patches
  into the cached user.

Every call to the hosted backend is a parameter that holds its reply
(`Types.Reply`: data, an error reply, or a thrown exception). The writes an
operation issues are returned as a log of `AuthService.Call` values. That is
how the model states which writes happen: an identity is never undone after a
failed profile insert, and an update never writes the balance.

Files:

- `types.dfy`: module `Types`. It holds `User`, `UserPatch` (`Partial<User>`),
  the `profiles` row, `Notification`, the auth identity, backend replies, and
  JavaScript's `||` on optional strings.
- `auth_service.dfy`: module `AuthService`. It holds the account service.
- `auth_context.dfy`: module `AuthContext`. It holds the class `AuthProvider`,
  the default identity, and the patch merge.

A row column that is null in the store is `None`. JavaScript's `x || d` on a
string counts the empty string as missing (`Types.Or`). On a flag or a balance,
`||` only replaces a missing value.

The code has no balance arithmetic: the balance write stores whatever value
it is handed, so no balance rule is modelled. The cache starts out already
authenticated as the default identity.

## Model

| member | source | states |
|---|---|---|
| `AuthService.MapProfileToUser` | services/authService.ts:5-18 | The user's id is the auth identity's. The email falls back from the row to the identity to `""`. A missing or empty name, username or phone gives `""` (and only then). The admin and verified flags are true only when the row says true. A missing balance gives 0, any present one is kept. Notifications are empty and the picture URL is the row's. |
| `AuthService.MapIgnoresRowId` | services/authService.ts:7 | Changing the row's own id never changes the mapped user. |
| `AuthService.TakeUntil` | services/authService.ts:37 | `split('@')[0]` is a prefix of the text that holds no `'@'`. It stops at the end of the text or just before an `'@'`. |
| `AuthService.ToLower` | services/authService.ts:37 | Lower-casing keeps the length and lower-cases each character in place. |
| `AuthService.DeriveUsername` | services/authService.ts:37 | The username holds no `'@'` and no upper-case letter, and is no longer than the email. Each character is the lower-cased email character at the same place. It ends where the email ends or at the email's first `'@'`. |
| `AuthService.UsernameOfAddress` | services/authService.ts:216 | For `local@domain` with no `'@'` in `local`, the username is `local` lower-cased. |
| `AuthService.TakeUntilAbsent` | services/authService.ts:37 | Text without the separator comes back whole from `split(sep)[0]`. |
| `AuthService.UsernameIdempotent` | services/authService.ts:37 | Deriving a username from a username gives the same username. |
| `AuthService.RegisterProfileRow` | services/authService.ts:43-52 | The sign-up row is keyed by the new auth id and carries the form's email, name and phone and the derived username. It is not admin and not verified, its balance is 13000000, and it has no picture URL. |
| `AuthService.AdminProfileRow` | services/authService.ts:221-230 | The admin-created row takes admin and verified from the form, each false when absent. It takes the balance from the form, 0 when absent. The form's picture URL is not written. |
| `AuthService.SameUsernameRule` | services/authService.ts:216 | Both creation paths give the same email the same username. |
| `AuthService.Register` | services/authService.ts:20-66 | The identity is always requested first. An auth error, a missing auth user or an exception gives no user and no profile insert. An identity gives exactly one insert, of the sign-up row keyed by its id. A failed insert returns the "Akun terbuat tapi profil gagal disimpan: " error, and no call undoes the identity. A user comes back exactly when both steps succeed, and it is the stored row mapped with the identity. |
| `AuthService.RegisterStoresNewUser` | services/authService.ts:40-62 | For a non-empty form email, when the store echoes the inserted row, the new user has the auth id, the form's data (email included) and the derived username. It is not admin, not verified, holds 13000000 and has no notifications. |
| `AuthService.AdminCreateUser` | services/authService.ts:203-245 | The profile insert happens exactly when the sign-up yields an identity, and it uses the admin row keyed by that id. A user comes back exactly when the insert also succeeds, and it is the stored row mapped with the identity. Every failure resolves with null. |
| `AuthService.Login` | services/authService.ts:68-99 | An auth error gives its message. A missing auth user gives "User tidak ditemukan.". A profile read error gives "Profil data tidak ditemukan di database.". An exception in either step gives the exception's message. A user comes back exactly when both steps return data, and it is the row mapped with the identity; otherwise the error is set (an exception without a message gives the empty message). |
| `AuthService.GetCurrentUser` | services/authService.ts:105-131 | Null when there is no session user, no profile row, or an exception. Otherwise the user has the session's id and is the row mapped with the session identity. Its notifications are the query's rows, or empty when the query failed. |
| `AuthService.ListUser` | services/authService.ts:171-182 | A listed user has the row's id and the row's columns unchanged. Its email is `""` when the column is missing or empty. Its notifications are empty. |
| `AuthService.ListUsers` | services/authService.ts:171 | One listed user per row, in row order. |
| `AuthService.GetAllUsers` | services/authService.ts:164-183 | A store error resolves with `[]`. An exception rejects. Data gives one user per row in row order, each with the row's id and no notifications. |
| `AuthService.ListingErrorLooksEmpty` | services/authService.ts:169 | A store error and an empty table give the same listing. |
| `AuthService.ListingAgreesWithMapping` | services/authService.ts:171-182 | On a row with every column present and a non-empty email column (or an identity without email), the listing and the session mapping (given the row's own identity) give the same user. |
| `AuthService.ListingIgnoresIdentityEmail` | services/authService.ts:173 | A row with an empty or missing email lists with email `""`, while the session mapping takes the identity's email (line 8); the two then disagree. |
| `AuthService.UpdateSet` | services/authService.ts:188-192 | The update set holds only full name, phone and picture URL, each exactly when non-empty, and the verified flag exactly when present, also when false. Each carries the patch's value. It never holds balance, admin flag, email, username or id. |
| `AuthService.UpdateUserInfo` | services/authService.ts:185-200 | With no id, no write is issued. Otherwise one update of that id with the patch's update set. The call resolves exactly when the store reply has no error, and rejects with the error's message otherwise. |
| `AuthService.UpdateKeepsProtectedColumns` | services/authService.ts:188-197 | Applying the update set to any row keeps its id, email, username, admin flag and balance. Name, phone, picture URL and verified flag change exactly as the patch supplies them. |
| `AuthService.AddUserNotification` | services/authService.ts:146-155 | The appended notification record belongs to the given user, carries the message and the given date, and is unread. |
| `AuthContext.Merge` | context/AuthContext.tsx:77 | Every field the patch holds overwrites the user's field. Every other field is kept. |
| `AuthContext.MergeEmpty` | context/AuthContext.tsx:77 | Merging the empty patch keeps the user. |
| `AuthContext.MergeIdempotent` | context/AuthContext.tsx:77 | Merging a patch twice is merging it once. |
| `AuthContext.MergeOfProfileFieldsKeepsIdentity` | context/AuthContext.tsx:77 | A patch without id, email, username, admin flag and balance leaves those fields of the cached user unchanged. |
| `AuthContext.AuthProvider.constructor` | context/AuthContext.tsx:21-38 | The cache starts with the default identity, authenticated, not loading, without error. That identity is admin and verified and holds 130000000. |
| `AuthContext.AuthProvider.RefreshUser` | context/AuthContext.tsx:40-50 | The user becomes the fetched user, or the default identity when none was found, so it is never null. The status is authenticated and the cache is not loading afterwards. |
| `AuthContext.RefreshFromSession` | context/AuthContext.tsx:40-50 | A refresh over a session lookup always ends with a user, authenticated and not loading. A successful lookup puts the looked-up user into the cache: the row mapped with the session identity, with the query's notifications (or none when the query failed). Any user other than the default identity has the session's id. A failed lookup leaves the default identity. The error is kept. |
| `AuthContext.AuthProvider.UpdateProfile` | context/AuthContext.tsx:72-85 | It succeeds exactly when there is a cached user. Then the user becomes the merge of the patch and loading ends. Without a user it fails and loading stays raised. The error is cleared either way; from a state with a user it always succeeds and keeps a user. |
| `AuthContext.AuthProvider.Login` | context/AuthContext.tsx:56-58 | Sign-in always succeeds and changes no state. |
| `AuthContext.AuthProvider.Register` | context/AuthContext.tsx:60-62 | Sign-up always succeeds and changes no state. |
| `AuthContext.AuthProvider.Logout` | context/AuthContext.tsx:64-66 | Sign-out changes no state. |
| `AuthContext.AuthProvider.VerifyEmail` | context/AuthContext.tsx:68-70 | Email verification always succeeds and changes no state. |

Every state the cache reaches has a user. The constructor establishes
`AuthProvider.Valid()`, and `RefreshUser` and `UpdateProfile` keep it. So the
"no user" branch of `UpdateProfile`, which leaves the loading flag raised, is
modelled, but no sequence of the modelled operations reaches it:
`UpdateProfile` ensures `old(Valid()) ==> Valid() && ok`.

## Left out

- The hosted backend client (auth sign-up, sign-in, session and sign-out, and table select, insert and update). It is network I/O through a library that is not part of this model. Each call is a reply parameter, and each write is an entry in the returned call log.
- The store's own behaviour: ordering notifications by date, `.single()` failing on zero or many rows, and what an insert hands back. They are abstract replies. `ApplyUpdates` states only what an update of the named columns does to a row.
- `updateUserBalance` and `updateUserNotification`: each is a single remote write with no logic, and their errors are ignored.
- The timestamp of `addUserNotification` comes from the clock. It is a parameter.
- The service's `logout` (a bare sign-out call) and its constant-true `verifyEmail`.
- React plumbing: the context object, the `useEffect` that runs a refresh on mount, the `useAuth` provider check, and the interleaving of asynchronous setters. The setters run in order. The null check in `updateProfile` reads the same state as the merge.
- The `catch` branch of `updateProfile`. Merging a patch into a user cannot throw, so that branch is not modelled.
- `console.error` logging.
- An exception without a `message` is modelled as one whose message is the empty string. Where the code uses the message without a fallback (the `catch` of `login`), the source then returns an `undefined` error, and the model returns the empty string.
- `types.ts` is not part of this model. `AuthStatus` is modelled with the one member the code uses plus `Unauthenticated`. `UserProfileUpdate` is modelled as `Partial<User>`, the widest type it can be.
- A spread key that is present but holds `undefined` (it would overwrite the field with `undefined`) is not modelled. A patch field is either absent or holds a value.
- JavaScript values outside the declared types are not modelled, such as a `NaN` balance. `balance || 0` is modelled as "0 when missing".
- `App.tsx`: routing and provider wiring.
- AuthService.ToLower: models `toLowerCase` on ASCII letters only, without Unicode case mapping.
- AuthService.DeriveUsername: inherits the ASCII-only lower-casing of `ToLower`.
