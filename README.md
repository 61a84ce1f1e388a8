# VK single sign-on for NodeBB: the account-linking core in Dafny

This project models the VKontakte login plugin for NodeBB (`library.js`) and proves what it does when a VK
identity arrives. The model decides which local uid the identity maps to, and it writes and deletes the link
between the two.

The plugin touches this host storage:

- the `vkontakteid:uid` hash;
- the `user:<uid>` records, with the fields `vkontakteid`, `email:confirmed`, `picture` and `uploadedpicture`, plus
  the `username` and `email` that `User.create` stores;
- the email index read by `User.getUidByEmail`;
- the `users:notvalidated` set;
- the uid allocator behind `User.create`.

This storage is the class `HostStore.Store`, whose map fields the operations update in place, in the order the
source issues its calls. The same storage as a value is `Accounts.Db`. Each operation has a function in module
`Accounts` (`LoginSpec`, `VerifySpec`, `UnlinkSpec`). The matching method of `Store` is proved to return, and to
leave the storage in, exactly what that function gives for the old state. The plugin's promises are lemmas
about those functions.

Files:

- `wrappers.dfy`: `Option`, `Result`, and `PushList`, a caller-owned JavaScript array that hooks push into.
- `accounts.dfy`: the storage value, login, the verify callback, unlink, and their lemmas.
- `store.dfy`: the storage object and its methods.
- `settings.dfy`: `Vkontakte.settings`, the overlay in `init`, and the credential gate in `getStrategy`.
- `association.dfy`: `getAssociation` and `addMenuItem`.

Conventions:

- JavaScript truthiness is explicit. An empty string stands for a missing or `undefined` string. A uid from
  `getUidByEmail` counts as an account only when it is present and not 0 (`HasAccount`).
- Each host call whose outcome the source waits for can fail. Its failure is a parameter (`LoginFaults`,
  `UnlinkFaults`, the hook's `Option<Error>`). A failed load of the saved settings is the `None` input of
  `Settings.Init`.
- The writes the source does not wait for are assumed to succeed (see "## Left out").
- `Accounts.Valid` is the allocator's invariant: every account and every indexed email is below `nextUid`.
  Lemmas show that login, the verify callback and unlink keep it.

Some behaviour of the code differs from what a reader might expect of an account-linking plugin. The model follows the code:

- Links are not kept one-to-one. The merge path overwrites a user's `vkontakteid` and keeps that user's old hash
  entry. `Accounts.MergeLeavesStaleLink` shows that after a later unlink, the old VK id still logs into the
  account.
- The session branch takes over a VK id that is already linked to another user. It overwrites the hash entry
  and leaves the other user's `vkontakteid` in place. `Accounts.SessionTakeoverLeavesStaleBackReference` shows
  that unlinking the other user then deletes the hash entry the session user relies on.
- With autoconfirm off, `email:confirmed` is still written, with the value false (library.js:171).
- The session branch's link writes are not undone when the login hook fails.

## Model

| member | source | states |
|---|---|---|
| Accounts.SetUserField | library.js:171 | one `User.setUserField` write: the record of that uid becomes the old record (or an empty one) with the one field set; every other user and every other store is unchanged |
| Accounts.Created | library.js:195-199 | a successful `User.create`: the next uid gets a record with just username and email and the allocator advances; on a valid store that uid was unused and the invariant is kept |
| Accounts.HasAccount | library.js:194 | the `!uid` test: a found uid counts as an account exactly when it is neither `null` nor 0 |
| Accounts.UidByEmail | library.js:189 | the email index lookup: the indexed uid, or none when the email is not indexed |
| Accounts.Confirm | library.js:170-174 | the confirmation step: `email:confirmed` of the uid becomes the setting, the uid leaves `users:notvalidated` only when it is on, and nothing else changes |
| Accounts.Link | library.js:176-177 | the two link writes: the hash maps the VK id to the uid and the user's `vkontakteid` is the VK id; nothing else changes |
| Accounts.SetAvatar | library.js:179-182 | the avatar step: with a truthy picture both picture fields of the uid hold it, and with an empty one the storage is unchanged |
| Accounts.Finish | library.js:168-187 | the whole `success` step: the link in both directions, the confirm flag, the not-validated set as the setting says, the avatar fields set only for a truthy picture; other users, the email index and the allocator unchanged |
| Accounts.LoginSpec | library.js:154-208 | login as a function of the storage: a failure leaves the storage as it was; a success leaves the hash mapping the VK id to the uid returned (and, off the fast path, the user's back-reference set); at most one uid is allocated and the email index is never written |
| Accounts.FallbackEmail | library.js:126 | the made-up address is the username, or the id when the username is empty, followed by `@users.noreply.vkontakte.com` |
| Accounts.SessionUid | library.js:115 | the session test: a uid exactly when the request has a user with a uid greater than 0 |
| Accounts.AfterHook | library.js:119-121 | `done` after the login hook: the hook's error when it fails, otherwise the uid |
| Accounts.VerifySpec | library.js:113-137 | the verify callback as a function of the storage: a success leaves the hash mapping the profile's id to the uid returned; the session branch allocates nothing; without a session, a failure other than the hook's leaves the storage as it was; the email index is never written |
| Accounts.DeleteLink | library.js:235 | deletes the named hash entry, keeps every other entry, and deletes nothing for a missing name |
| Accounts.DeleteBackReference | library.js:238 | clears the user's `vkontakteid` and changes nothing else |
| Accounts.UnlinkSpec | library.js:228-247 | unlink as a function of the storage: a success returns the uid, clears its back-reference and removes the stored VK id from the hash; a failure leaves the user records as they were; the hash only shrinks |
| Accounts.UnlinkPreservesValid | library.js:228-247 | unlink keeps the allocator's invariant |
| Accounts.SessionTakeoverLeavesStaleBackReference | library.js:115-117 | concretely, a session user who connects a VK id linked to another user takes over the hash entry; the other user keeps its back-reference, and unlinking it deletes the session user's entry |
| PluginSettings.CredentialsPresent | library.js:106 | the credential test: both the client id and the secret are non-empty |
| Accounts.LoginFastPath | library.js:155-164 | a VK id already in `vkontakteid:uid` returns its uid and writes nothing; the email index is never consulted |
| Accounts.LoginMergesByEmail | library.js:189-204 | an unlinked VK id whose email names an account returns that uid and allocates nothing; the hash and the user's `vkontakteid` then point at each other; other users, the email index and that user's username and email stay as they were |
| Accounts.LoginCreatesAccount | library.js:194-201 | an unlinked VK id with no account for its email gets exactly one fresh uid; its record holds displayName, email, the VK id, the confirm flag and the avatar; it is linked in the hash and returned; existing users are unchanged |
| Accounts.LoginFailureWritesNothing | library.js:155-198 | every login failure is the error of the failing lookup or creation, and the storage is untouched; a failing VK-id lookup, email lookup or creation each returns its own error; a failed creation writes no link, confirmation or picture |
| Accounts.LoginConfirmation | library.js:170-174 | on the merge and create paths `email:confirmed` becomes the autoconfirm setting; the uid leaves `users:notvalidated` exactly when autoconfirm is on, and otherwise the set is unchanged |
| Accounts.LoginAvatar | library.js:179-182 | a truthy picture is written to both `uploadedpicture` and `picture`; otherwise neither field changes |
| Accounts.LoginLinksResult | library.js:154-208 | after any successful login the hash maps the VK id to the uid returned; at most one uid is allocated; the fast path leaves the storage unchanged |
| Accounts.FinishPreservesValid | library.js:168-187 | the confirm, link and avatar step on an allocated uid keeps the allocator's invariant |
| Accounts.LoginPreservesValid | library.js:154-208 | login keeps the allocator's invariant |
| Accounts.RepeatedLoginsAgree | library.js:155-201 | across any number of logins of one VK id, with any emails and failures, at most one account is created and every successful login returns the uid the hash ends up holding |
| Accounts.EmailFor | library.js:124-126 | the email is `emails[0]` when the profile has emails (a TypeError when that list is empty), else username-or-id followed by `@users.noreply.vkontakte.com` |
| Accounts.FallbackEmailInjective | library.js:126 | different local parts give different made-up addresses |
| Accounts.FallbackEmailsDistinct | library.js:124-126 | two email-less profiles with different username-or-id get different emails, so neither is merged into the other's account by its made-up address |
| Accounts.SessionBranch | library.js:115-122 | a request carrying a user with uid > 0 gets only the two link writes to that uid, with no email lookup, creation, confirmation or avatar; the result is the hook's error or that uid |
| Accounts.FreshLoginBranch | library.js:124-136 | without a session user, the callback fails with a TypeError and no writes when the email or first photo is missing; otherwise it is login with the derived email and first photo, followed by the hook |
| Accounts.VerifyPreservesValid | library.js:113-137 | the verify callback keeps the allocator's invariant when a session user is an allocated account |
| Accounts.UnlinkRemovesBothDirections | library.js:228-246 | a successful unlink returns the uid, deletes the stored VK id's hash entry (or nothing when there is none) and the user's `vkontakteid`, and changes nothing else |
| Accounts.UnlinkStopsAtFirstError | library.js:232-244 | a failing step of the unlink returns its error, and no later step runs |
| Accounts.UnlinkIdempotent | library.js:228-246 | unlinking a second time succeeds and changes nothing |
| Accounts.MergeLeavesStaleLink | library.js:176-177 | concretely, merging a second VK id into a linked account keeps the first hash entry, and after an unlink the first VK id still logs into the account |
| HostStore.Store.GetUidByVkontakteId | library.js:210-217 | returns the hash's uid for the VK id, `null` when unmapped, or the storage error |
| HostStore.Store.GetUidByEmail | library.js:189-193 | returns the email index's uid, `null`, or the host error |
| HostStore.Store.GetVkontakteId | library.js:233 | returns the user's stored `vkontakteid` (absent for a user without one), or the host error |
| HostStore.Store.Create | library.js:195-199 | allocates the next uid with the given username and email, or returns the host error and changes nothing |
| HostStore.Store.SetUserField | library.js:171 | writes one user field, creating the record if it is missing |
| HostStore.Store.SetLink | library.js:177 | sets the hash entry for the VK id to the uid |
| HostStore.Store.RemoveNotValidated | library.js:173 | removes the uid from `users:notvalidated` |
| HostStore.Store.DeleteLink | library.js:235 | deletes the hash entry named by the stored VK id; a `null` name deletes nothing |
| HostStore.Store.DeleteBackReference | library.js:238 | deletes the user's `vkontakteid` field |
| HostStore.Store.Finish | library.js:168-187 | performs, in place, the confirm, link and avatar writes of `success` |
| HostStore.Store.Login | library.js:154-208 | performs login in place; its result and new storage are those of `LoginSpec` |
| HostStore.Store.Verify | library.js:113-137 | performs the verify callback in place; its result and new storage are those of `VerifySpec` |
| HostStore.Store.DeleteUserData | library.js:228-247 | performs the unlink waterfall in place; its result and new storage are those of `UnlinkSpec` |
| PluginSettings.FromEnvironment | library.js:31-35 | the starting settings take the client id and secret from the environment; autoconfirm is on exactly when its variable is `"true"` |
| PluginSettings.Overlay | library.js:63-74 | a truthy saved id or secret replaces the current one; a truthy saved autoconfirm sets the flag to whether it is `"on"`; anything else is kept |
| PluginSettings.OverlayIdempotent | library.js:63-72 | loading the same saved settings twice gives the same settings as loading them once |
| PluginSettings.OverlayKeepsCredentials | library.js:63-72 | loading saved settings never removes a credential, so a configured provider stays enabled |
| PluginSettings.Registration | library.js:106-112 | a strategy is registered exactly when both id and secret are truthy, with those credentials and the `/auth/vkontakte/callback` URL |
| PluginSettings.Settings.constructor | library.js:30-36 | the settings object starts from the environment |
| PluginSettings.Settings.Init | library.js:63-74 | updates the settings fields in place as `Overlay` says; when loading yields no settings object it throws before changing anything |
| PluginSettings.Settings.GetStrategy | library.js:104-152 | with both credentials, registers the strategy and appends exactly the VK login button to `strategies`; otherwise it leaves them alone |
| Associations.AssociationEntry | library.js:83-98 | a truthy stored VK id gives a linked entry with the `https://vk.com/id<id>` profile URL and the deauth URL; anything else gives an unlinked entry with the `/auth/vkontakte` URL and no deauth URL |
| Associations.GetAssociation | library.js:77-102 | appends one entry, for the user's stored VK id, to the caller's associations, or appends nothing and returns the read error |
| Associations.SessionLinkShowsAssociated | library.js:115-117 | after a logged-in user connects a non-empty VK id, the account page shows that user as linked to that VK profile |
| Associations.UnlinkShowsNotAssociated | library.js:91-97 | after a successful unlink, the account page offers to connect again |
| Associations.AddMenuItem | library.js:219-226 | appends exactly the admin page's entry to the menu |

## Left out

- `static/lib/login.js` is not modelled. It only swaps a login-button icon in the page.
- Route and page registration and template rendering in `init` (library.js:39-61) are host-framework glue. The
  `nconf` base URL is a string parameter, and `winston` logging is dropped.
- The OAuth exchange of `passport` / `passport-vkontakte` is foreign code. The model starts from the profile
  that exchange yields. `authenticationController.onSuccessfulLogin` is an opaque step whose possible failure
  is a parameter.
- The writes that the source does not wait for are assumed to succeed. These are the `setUserField`,
  `setObjectField` and `sortedSetRemove` calls at library.js:116-117 and 171-181. The source ignores their
  outcome, so a failed write goes unnoticed. For example, a `vkontakteid:uid` entry could be left without its
  back-reference. The model does not capture such partial states.
- `Settings.Init` models a failed settings load only as the case where no settings object arrives. A load that
  fails but still hands over an object is modelled as a load of that object.
- Callback plumbing (`async.waterfall`, un-awaited writes) runs as sequential atomic updates. Interleavings are
  not modelled. Neither is the race between two concurrent first logins of the same VK id; concurrency is out of
  scope, and the source does nothing about that race.
- `hasOwnProperty` has no member of its own. It becomes the presence of an optional field: `Profile.emails`,
  `Request.user` and `SessionUser.uid`.
- A `req.user` that is `null` is not modelled. In the source, `hasOwnProperty` would throw on it.
- `User.create` is modelled as an allocator only. The host's username de-duplication, email index update and
  other bookkeeping are not part of this model.
- Values are typed more narrowly than in JavaScript. Uids are integers, ids and URLs are strings, and saved
  settings are strings. Type coercions (`"5" > 0`, a numeric `vkontakteid`) are not modelled.
- `getStrategy`, `getAssociation` and `addMenuItem` hand their argument object back to the caller. The model
  represents only the array they push into, and the error.
- Accounts.VerifyPreservesValid: requires a session user's uid to be below `nextUid`. The source does not check
  this; it relies on the host only putting existing accounts in a session.
