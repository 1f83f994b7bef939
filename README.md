# PagePost admin panel: owner-scoped posts and guest sharing

This project models the admin panel of PagePost (`app/admin/page.js`). In
that panel an owner creates travel posts (title, content, arrival and
departure dates, destination, an optional image), lists their own posts,
shares a post with a guest through a `/view/{id}` link, and deletes posts.

The Supabase backend is modelled as an in-memory state. `Schema.Tables` is
its value. `Db.Store` is a class that holds it and performs each query in
place. The backend has:

- the `posts` table, a map from id to row, where each row carries `created_by`;
- the `guest_access` table, a sequence of grants;
- the `post-images` bucket, a map from storage key to file;
- the counter that hands out post ids.

The functions in module `Db` give the meaning of each query, and the lemmas
beside them state what follows from it.

The panel's React state is `Admin.AdminPanel`. Its fields are the held post
list, the six form fields, `guestEmails`, `isDeleting`, `activeTab` and
`loading`. Each handler is a method that runs as one sequential step
against a `Store`. The following are parameters:

- the session user, as an `Option<UserId>`;
- `Date.now()` and `window.location.origin`;
- the bucket's public-URL mapping;
- the success or failure of every backend call.

The two string expressions of the panel are pure functions in module `Links`:

- The storage key is `posts/{user}/{timestamp}-{name}`. The file name passes
  through JavaScript's `replace(/\s+/g, '_')`, modelled with the full `\s`
  character class in module `Text`.
- The share link is `{origin}/view/{id}`.

Both are proved to parse back to the values they were built from.

The code is modelled as written, including these defects:

- `deletePost` filters by `id` only, with no owner check
  (`Db.DeleteByNonOwner`, `Admin.AdminPanel.DeletePost`, `Admin.NonOwnerDeleteScenario`).
- `deletePost` does not cascade to `guest_access`. A grant for the deleted
  post stays behind (`Db.DeleteLeavesOrphanGrants`).
- `shareWithGuest` computes `email` but inserts the whole `guestEmails`
  value as the grant's `guest_email`. A grant row for one post therefore
  carries the drafts typed for other posts too (`Admin.ShareScenario`).
  After a successful insert `guestEmails` becomes the string `''`
  (`GuestDrafts.ClearedDrafts`).
- Listing and sharing without a session do not fail with "authentication
  required". Reading `.data.user.id` of a null user throws, which the model
  calls `NoSession`.
- Sharing validates no e-mail, and sharing twice inserts two rows.

Post ids are modelled as natural numbers assigned in increasing order.

## Model

| member | source | states |
|---|---|---|
| `Text.CollapseWhitespace` | app/admin/page.js:60 | the sanitised file name contains no whitespace and is never longer than the original |
| `Text.CollapseRun` | app/admin/page.js:60 | one maximal run of whitespace between two parts becomes exactly one `_`, and the parts are sanitised independently |
| `Text.CollapseKeepsPlainName` | app/admin/page.js:60 | a file name without whitespace is left unchanged |
| `Text.CollapseIdempotent` | app/admin/page.js:60 | sanitising an already sanitised name changes nothing |
| `Text.Decimal` | app/admin/page.js:60 | the text a template literal gives `Date.now()` or an id is a non-empty run of digits without a leading zero |
| `Text.DecimalRoundTrip` | app/admin/page.js:60 | that decimal text reads back as the same number |
| `Text.DecimalInjective` | app/admin/page.js:60 | distinct numbers render as distinct texts |
| `Links.StorageKey` | app/admin/page.js:60 | the key lies inside the owner's folder `posts/{user.id}/` |
| `Links.StorageKeyRoundTrip` | app/admin/page.js:60 | the key parses back into the upload's timestamp and the whitespace-collapsed file name, and that name has no whitespace |
| `Links.StorageKeyInjective` | app/admin/page.js:60 | one owner's two uploads share a key only with the same timestamp and names that sanitise alike |
| `Links.ShareLink` | app/admin/page.js:127 | the link starts with `{origin}/view/` |
| `Links.ShareLinkRoundTrip` | app/admin/page.js:127 | the `[id]` segment of the link is exactly the shared post id, with no e-mail and no token |
| `Links.ShareLinkInjective` | app/admin/page.js:127 | different posts get different links |
| `GuestDrafts.WithGuestEmail` | app/admin/page.js:20-25 | the entry for `postId` becomes the e-mail, every other entry is kept, and no other key appears |
| `GuestDrafts.DraftFor` | app/admin/page.js:109 | `guestEmails[postId] \|\| ''`: an existing entry reads as itself, and a missing entry or the cleared `''` state reads as `""` |
| `GuestDrafts.DraftAfterChange` | app/admin/page.js:20-25 | read after write: the edited post reads the new e-mail and every other post reads what it read before |
| `GuestDrafts.ClearedDrafts` | app/admin/page.js:129 | after `setGuestEmails('')` every post's draft reads `''`, and the next edit starts from an empty object |
| `Db.InsertPost` | app/admin/page.js:74-84 | the new row gets a fresh id and exactly the payload's columns; earlier rows, grants and objects are unchanged, and ids stay consistent |
| `Db.DeleteById` | app/admin/page.js:136-139 | the row with that id is gone, the other rows are unchanged, and `guest_access` is untouched |
| `Db.DeleteByNonOwner` | app/admin/page.js:136-139 | a post created by someone other than the caller is removed all the same; the caller-independent form of this, over the handler, is `Admin.AdminPanel.DeletePost`'s ensures |
| `Db.DeleteLeavesOrphanGrants` | app/admin/page.js:136-139 | a grant for the deleted post survives and references a missing post |
| `Db.InsertGrant` | app/admin/page.js:121-123 | the grant is appended and the posts, the bucket and the id counter are untouched |
| `Db.PutObject` | app/admin/page.js:61-67 | with `upsert: false` the upload is refused exactly when the key is taken; otherwise only the bucket gains the object |
| `Db.CreatorOf` | app/admin/page.js:111-115 | the lookup succeeds exactly for an existing id and yields that row's `created_by` |
| `Db.OwnedRows` | app/admin/page.js:40-46 | the listing holds only rows created by the user, holds every such row, and is in strictly increasing id order |
| `Db.InsertPostListing` | app/admin/page.js:74-95 | after an insert, the refetched listing of the stamped owner gains exactly the new row, and every other user's listing is unchanged |
| `Db.Store.InsertPostRow` | app/admin/page.js:74-86 | the store becomes `InsertPost` of its old state, or is unchanged on a database error |
| `Db.Store.DeleteWhereId` | app/admin/page.js:136-141 | the store becomes `DeleteById` of its old state, or is unchanged on a database error |
| `Db.Store.InsertGrantRow` | app/admin/page.js:121-125 | the store becomes `InsertGrant` of its old state, or is unchanged on a database error |
| `Db.Store.Upload` | app/admin/page.js:61-69 | the upload succeeds exactly when there is no transport error and the key is free, and only then does the bucket change |
| `Db.Store.SelectCreator` | app/admin/page.js:111-117 | the lookup yields the row's creator exactly when the row exists and the query did not fail |
| `Db.Store.SelectOwned` | app/admin/page.js:41-46 | without a query error it returns exactly the user's rows, and no other owner's row |
| `Admin.AdminPanel.constructor` | app/admin/page.js:7-17 | the panel starts with an empty list, an empty form, empty drafts, nothing being deleted and the create tab |
| `Admin.AdminPanel.HandleGuestEmailChange` | app/admin/page.js:20-25 | `guestEmails` gains the new entry; the edited post's draft reads the e-mail and every other draft is unchanged |
| `Admin.AdminPanel.FetchPosts` | app/admin/page.js:40-47 | the held list becomes the caller's own rows; on a query error it is unchanged; with no session the call throws and nothing changes |
| `Admin.CreateEffect` | app/admin/page.js:49-87 | without a user (or on an auth error) it fails with "Authentication required" and nothing changes. A refused upload changes nothing and inserts no row. It succeeds exactly when there is a user, the upload is accepted (or there is no image) and the insert works; then there is exactly one new row under a fresh id, with the form's title, content, dates, destination and image URL and the caller as `created_by`, and earlier rows are unchanged. An accepted image is stored under the owner-scoped key, even when the insert then fails. Grants never change |
| `Admin.CreatedPostIsListed` | app/admin/page.js:74-95 | after a successful create, the caller's refetched listing is the old listing plus the new row, and every other user's listing is unchanged |
| `Admin.AdminPanel.CreatePost` | app/admin/page.js:49-106 | the backend changes exactly as `CreateEffect` says, and the handler ends with its outcome with `loading` cleared. On success the form is cleared, the list refetched and the list tab shown; on any failure the list, the form and the tab are kept |
| `Admin.AdminPanel.UploadAndInsert` | app/admin/page.js:57-87 | for a signed-in user, the upload of the form's image (if any) and then the row insert change the backend exactly as `CreateEffect` says, and the outcome is the one `CreateEffect` gives |
| `Admin.AdminPanel.UploadImage` | app/admin/page.js:59-71 | the image is stored under the caller's key exactly when there is no transport error and the key is free, and the URL column is that key's public URL |
| `Admin.AdminPanel.ClearForm` | app/admin/page.js:89-94 | all six form fields are empty afterwards |
| `Admin.AdminPanel.ShareWithGuest` | app/admin/page.js:108-131 | it throws and inserts nothing exactly when the lookup fails or the caller is not the creator. Otherwise it inserts one grant carrying the whole `guestEmails` value; on a successful insert it returns `{origin}/view/{postId}` and clears the drafts to `''`. The posts and the bucket never change |
| `Admin.AdminPanel.DeletePost` | app/admin/page.js:133-149 | the store becomes `DeleteById` of its old state whoever the caller is (or stays as it was on an error), grants are kept, the list is refetched, and `isDeleting` is cleared |

## Left out

- `checkUser` and the `useEffect` wiring (app/admin/page.js:27-38). `checkUser` always returns true and `if (checkUser)` only tests that the function exists. Its only effect is navigation.
- `logout` (app/admin/page.js:151-159). It calls the identity provider's sign-out and navigates; the model has no session lifecycle.
- `alert` and `console.error`. They are user-facing side effects with no state; the model returns the failure or the link instead.
- The JSX rendering and the locale formatting of dates (`toLocaleString`).
- Storage internals: `cacheControl`, `contentType` and how public URLs are formed. The public-URL mapping is a parameter.
- Network and authentication internals. Each backend call's failure is a boolean parameter. An auth error from `getUser` is treated like a missing user, because the session user is a single `Option`.
- Asynchrony and interleaving. Each handler is one sequential step, so the brief `loading` and `isDeleting` flags are modelled only at their start and end.
- Server-side row-level security policies are not part of this model. Which deletes or inserts the server itself would refuse is unknown, so the model follows the queries the client sends.
- app/login/page.js and app/viewer/page.js. They contain only sign-in and role-based navigation glue.
- The view page (app/view/[id]/page.js) and any check of a guest's e-mail against `guest_access`. The view page shows any existing row without consulting grants, and no code under app/ matches a guest e-mail against a grant, so there is nothing to model.
- Db.OwnedRows: the listing query (app/admin/page.js:41-44) has no `.order()`, so the backend may return rows in any order. The model returns them in increasing id order. The exact sequences in `Db.Store.SelectOwned`, `Admin.AdminPanel.FetchPosts`, `Db.InsertPostListing` and `Admin.CreatedPostIsListed` (which places the new row last) rest on that choice. The set of rows they state does not.
