# Owner-data access control, modelled in Dafny

This project models the access-control state machine of a digital-legacy application. Owners
keep documents, media folders and items, and digital accounts, and share them with trusted
contacts. Server actions read and change these rows on the owner's behalf. Two webhooks change
an owner's lifecycle status:

- the death trigger marks an owner DECEASED and hands each trusted contact a legacy access token;
- the insurance sync creates pending invitations and sets profiles INACTIVE.

All of it is one `Store` class (`database.dfy`). Its fields are the tables:

- profiles, with a Clerk id, an email, a status and a death date;
- contacts, documents, folders, media items and accounts, each with an owner;
- the three grant tables, as sets of (resource, contact) pairs;
- legacy tokens, keyed by (profile, contact);
- pending invitations, keyed by email.

Each action is a method on that store. It takes the caller's identity as an `Option`, returns
`Data(..)` or `Error(..)`, and has a field-granular `modifies` clause, so "nothing else changes"
follows from the frame. Each state-changing action states its whole new state in terms of the old
one. The lemmas beside them prove what the source promises about those states.

The shared prefix of the owner-facing actions is `Store.Authorize`:

- no identity gives "Not authenticated";
- no profile gives "Profile not found";
- for the actions with the lifecycle gate, DECEASED gives "locked" and INACTIVE gives "deactivated".

The gate is applied exactly where the code applies it:

- present in revoke and replace sharing, contact create and update, account delete, document
  delete, media item create and upload, folder create and update, and profile update and
  onboarding;
- absent in the three grants, contact delete, account create and update, document create,
  update and upload, and both media deletes.

How the store primitives are read:

- `findUnique({ id, userId })` finds nothing for another owner's row.
- `delete` fails on a missing row.
- `createMany` with `skipDuplicates` is set union.
- `createMany` without it fails on a repeated composite key.
- `findFirst` by email is the first matching profile in insertion order (`profileOrder`), a
  deterministic stand-in for "some matching row".

Store calls inside the two webhook loops may throw. Each loop takes the set of entries whose
calls throw (`faulty`, `faults`), so every catch branch is reachable and proved about.

## Model

| member | source | states |
|---|---|---|
| Types.Gate | apps/app/app/actions/sharing/revoke-access.ts:24-30 | only ACTIVE passes the lifecycle gate; DECEASED is refused as locked, INACTIVE as deactivated |
| Database.Store.ProfileOf | apps/app/app/actions/sharing/grant-access.ts:30-36 | the caller's profile lookup by Clerk id: a hit carries that Clerk id, and a miss means no profile has it |
| Database.Store.Authorize | apps/app/app/actions/sharing/revoke-access.ts:11-30 | no identity is "Not authenticated"; a success is the caller's own profile, and ACTIVE when the action is gated; every error is one of the four prefix errors |
| Database.AuthorizeGate | apps/app/app/actions/sharing/revoke-access.ts:16-30 | for an existing profile, an ungated action reaches it whatever its status, while a gated one is locked for DECEASED, deactivated for INACTIVE and passes for ACTIVE |
| Database.FirstMatching | apps/api/app/webhooks/death-trigger/route.tsx:69-76 | `findFirst`: a hit matches the key and no profile earlier in insertion order does; a miss means no listed profile matches |
| Database.WebhookLookupMeaning | apps/api/app/webhooks/death-trigger/route.tsx:60-76 | the webhook lookup finds the Clerk-id match whenever one exists, otherwise an email match; it misses exactly when neither key matches any profile |
| Database.WebhookLookupStable | apps/api/app/webhooks/insurance/route.tsx:123-134 | rewriting profiles without touching Clerk ids or emails moves no lookup |
| Database.Store.CategoryCount | apps/app/app/actions/accounts/list.ts:108-112 | a category count is at most the owner's account total, and is 0 exactly when the owner has no account in it |
| Database.Store.GroupRowsMeaning | apps/app/app/actions/accounts/list.ts:108-112 | the grouped rows are exactly the categories with accounts, each with its count, each category once |
| Database.Store.GroupByCategory | apps/app/app/actions/profile/get.ts:84-89 | `groupBy` over all six categories: one row per category with accounts, carrying its count |
| Database.Store.ContactsOf | apps/app/app/actions/profile/get.ts:79-89 | the owner's contacts are exactly the contact rows whose owner is that profile |
| Database.FreshId | apps/app/app/actions/profile/create.ts:35-45 | a generated primary key is not in use by any row |
| SecureToken.HexEncode | apps/api/app/webhooks/death-trigger/route.tsx:37-39 | hex encoding doubles the length and yields hex digits only |
| SecureToken.HexRoundTrip | apps/api/app/webhooks/death-trigger/route.tsx:37-39 | decoding a token gives back the random bytes it was drawn from |
| SecureToken.HexEncodeInjective | apps/api/app/webhooks/death-trigger/route.tsx:37-39 | different random draws give different tokens |
| SecureToken.GenerateSecureToken | apps/api/app/webhooks/death-trigger/route.tsx:37-39 | a token is 32 random bytes as 64 hex characters |
| Ledger.Pairs | apps/app/app/actions/sharing/grant-access.ts:57-63 | the inserted rows are exactly (resource, c) for each listed contact c |
| Ledger.ClearResource | apps/app/app/actions/sharing/revoke-access.ts:192-194 | `deleteMany` removes exactly the rows of that resource |
| Ledger.GrantUnion | apps/app/app/actions/sharing/grant-access.ts:57-63 | a grant gives the resource old grants plus the listed contacts, and leaves every other resource's grants as they were; an empty list adds nothing |
| Ledger.GrantIdempotent | apps/app/app/actions/sharing/grant-access.ts:62 | granting the same list again leaves the table as the first grant left it |
| Ledger.ReplaceExact | apps/app/app/actions/sharing/revoke-access.ts:191-204 | a replace leaves the resource granted to exactly the listed contacts (none for an empty list); other resources keep theirs |
| Ledger.ClearedHasNone | apps/app/app/actions/sharing/revoke-access.ts:192-194 | after the clear the resource has no grants, which is what a failed insert leaves behind |
| Ledger.ContactsCheckMeaning | apps/app/app/actions/sharing/grant-access.ts:48-54 | the count comparison passes exactly when every listed id is a contact of the caller and no id is repeated |
| GrantAccess.GrantDocumentAccess | apps/app/app/actions/sharing/grant-access.ts:21-69 | ungated; a foreign document or a failed contact check is an error with no write; otherwise the grant set gains the listed pairs |
| GrantAccess.GrantFolderAccess | apps/app/app/actions/sharing/grant-access.ts:71-119 | the same for a media folder |
| GrantAccess.GrantAccountAccess | apps/app/app/actions/sharing/grant-access.ts:121-169 | the same for a digital account |
| RevokeAccess.RevokeDocumentAccess | apps/app/app/actions/sharing/revoke-access.ts:6-54 | gated before ownership; a foreign document is not found; a missing pair is an error; otherwise exactly that pair goes |
| RevokeAccess.RevokeFolderAccess | apps/app/app/actions/sharing/revoke-access.ts:56-104 | the same for a media folder |
| RevokeAccess.RevokeAccountAccess | apps/app/app/actions/sharing/revoke-access.ts:106-154 | the same for a digital account |
| RevokeAccess.UpdateDocumentSharing | apps/app/app/actions/sharing/revoke-access.ts:156-210 | gated, owner-scoped, contacts unchecked; success clears and inserts the list; a repeated id fails after the clear and leaves no grants |
| RevokeAccess.UpdateFolderSharing | apps/app/app/actions/sharing/revoke-access.ts:212-266 | the same for a media folder |
| ProfileActions.CreateProfile | apps/app/app/actions/profile/create.ts:14-51 | an existing profile is refused; a new one is ACTIVE, not onboarded, with the given fields; the store stays well formed, so one profile per Clerk id |
| ProfileActions.Patched | apps/app/app/actions/profile/update.ts:6-13 | every supplied field replaces its column; Clerk id, status and death date never change |
| ProfileActions.PatchedIdempotent | apps/app/app/actions/profile/update.ts:39-42 | applying the same update twice is applying it once |
| ProfileActions.UpdateProfile | apps/app/app/actions/profile/update.ts:15-48 | a missing profile passes the gate, then the update fails; DECEASED and INACTIVE are refused; otherwise the patched profile |
| ProfileActions.CompleteOnboarding | apps/app/app/actions/profile/update.ts:50-81 | the same gate, then onboarding is complete; a second call leaves the store as it was |
| ProfileActions.GetProfile | apps/app/app/actions/profile/get.ts:6-34 | no profile is null data, not an error; otherwise the caller's profile with its contacts and counts of owned rows |
| ProfileActions.FoldCategoryRows | apps/app/app/actions/profile/get.ts:91-97 | the `reduce`: keys only grow, keys no row names keep their value, and with one row per key each key gets its row's count |
| ProfileActions.CategoryMapExact | apps/app/app/actions/profile/get.ts:84-97 | the category map holds exactly the categories with accounts, each with its count |
| ProfileActions.GetProfileWithStats | apps/app/app/actions/profile/get.ts:36-114 | no profile gives a null profile, zero totals and an empty map; otherwise totals of the caller's own rows and the exact category map |
| ContactActions.CreateContact | apps/app/app/actions/contacts/create.ts:15-58 | gated; one new contact owned by the caller with the given fields; other contacts unchanged |
| ContactActions.PatchedContact | apps/app/app/actions/contacts/update.ts:7-14 | supplied fields replace their columns; owner and creation time never change |
| ContactActions.UpdateContact | apps/app/app/actions/contacts/update.ts:16-64 | gated; another owner's contact is not found; otherwise the patched contact |
| ContactActions.DeleteContact | apps/app/app/actions/contacts/delete.ts:6-40 | ungated; another owner's contact is not found; otherwise exactly that contact goes |
| ContactActions.ListContacts | apps/app/app/actions/contacts/list.ts:6-33 | no profile is an empty list; otherwise exactly the caller's contacts, newest first |
| ContactActions.GetContact | apps/app/app/actions/contacts/list.ts:35-68 | no profile is an error; another owner's id is null; an owned contact comes with its grants of all three kinds |
| AccountActions.CreateAccount | apps/app/app/actions/accounts/create.ts:18-66 | ungated; a TRANSFER to a non-empty id that is not the caller's contact is refused; otherwise the new account is the caller's with the given fields |
| AccountActions.PatchedAccount | apps/app/app/actions/accounts/update.ts:7-17 | supplied fields replace their columns, and the transfer target can be cleared; the owner never changes |
| AccountActions.UpdateAccount | apps/app/app/actions/accounts/update.ts:19-59 | ungated, no target check; another owner's account is not found; otherwise the patched account |
| AccountActions.DeleteAccount | apps/app/app/actions/accounts/delete.ts:6-48 | gated; another owner's account is not found; otherwise exactly that account goes |
| AccountActions.ListAccounts | apps/app/app/actions/accounts/list.ts:7-44 | no profile is an empty list; otherwise exactly the caller's accounts, filtered by category only when one is given, most recently updated first |
| AccountActions.GetAccount | apps/app/app/actions/accounts/list.ts:46-79 | no profile is an error; another owner's id is null; an owned account comes with its access list |
| AccountActions.GetAccountStats | apps/app/app/actions/accounts/list.ts:81-131 | all six categories are present; all 0 without a profile; otherwise each is the caller's count and categories without accounts stay 0 |
| DocumentActions.CreateDocument | apps/app/app/actions/documents/upload.ts:16-52 | ungated; the new document is the caller's, with `isWill` defaulting to false and no limit on wills |
| DocumentActions.UploadDocumentFile | apps/app/app/actions/documents/upload.ts:54-76 | no identity or no file is an error; otherwise the key sits in the uploader's directory and ends with the file name |
| DocumentActions.PatchedDocument | apps/app/app/actions/documents/update.ts:7-14 | supplied fields replace their columns; the owner never changes |
| DocumentActions.UpdateDocument | apps/app/app/actions/documents/update.ts:16-56 | ungated; another owner's document is not found; otherwise the patched document |
| DocumentActions.DeleteDocument | apps/app/app/actions/documents/delete.ts:7-57 | gated; another owner's document is not found; a failed blob delete is swallowed and exactly that row goes |
| DocumentActions.ListDocuments | apps/app/app/actions/documents/list.ts:6-43 | no profile is an empty list; otherwise exactly the caller's documents, filtered by `isWill` only when given, most recently updated first |
| DocumentActions.GetDocument | apps/app/app/actions/documents/list.ts:45-78 | no profile is an error; another owner's id is null; an owned document comes with its access list |
| MediaActions.CreateMediaItem | apps/app/app/actions/media/upload.ts:15-68 | gated; a named folder must be the caller's; the item is the caller's, unorganized without a folder |
| MediaActions.UploadMediaFile | apps/app/app/actions/media/upload.ts:70-103 | optional-chained gate: no profile passes, DECEASED and INACTIVE do not; no file is an error; otherwise a key in the uploader's media directory |
| MediaActions.CreateMediaFolder | apps/app/app/actions/media/create-folder.ts:11-51 | gated; the folder is the caller's, with the given name and description |
| MediaActions.PatchedFolder | apps/app/app/actions/media/create-folder.ts:90-95 | only name and description change; the owner never does |
| MediaActions.UpdateMediaFolder | apps/app/app/actions/media/create-folder.ts:53-101 | gated; another owner's folder is not found; otherwise the patched folder |
| MediaActions.DeleteMediaItem | apps/app/app/actions/media/delete.ts:7-49 | ungated; another owner's item is not found; otherwise exactly that item goes |
| MediaActions.ItemsOutside | apps/app/app/actions/media/delete.ts:89-91 | the items left are exactly those not filed in the folder, unchanged |
| MediaActions.DeleteMediaFolder | apps/app/app/actions/media/delete.ts:51-101 | ungated; another owner's folder is not found; otherwise its items and then the folder go |
| MediaActions.ListMediaFolders | apps/app/app/actions/media/list.ts:6-37 | no profile is an empty list; otherwise exactly the caller's folders, most recently updated first |
| MediaActions.ListMediaItems | apps/app/app/actions/media/list.ts:39-74 | no profile is an empty list; otherwise the caller's items, filtered by folder only when one is given, newest first |
| MediaActions.GetMediaFolder | apps/app/app/actions/media/list.ts:76-108 | no profile is an error; another owner's id is null; an owned folder comes with its items and access list |
| DeathTrigger.Screen | apps/api/app/webhooks/death-trigger/route.tsx:41-102 | an unparsed body is 500; no identity is 400; no match is 404; an already DECEASED match is 400; otherwise the match and its death date, or now |
| DeathTrigger.SecondTriggerRefused | apps/api/app/webhooks/death-trigger/route.tsx:89-111 | after a flip, the same request at any later time is refused as already deceased |
| DeathTrigger.Summary | apps/api/app/webhooks/death-trigger/route.tsx:225-230 | one access entry per generated token, in order, linking to `/legacy/<token>` |
| DeathTrigger.MailedEntries | apps/api/app/webhooks/death-trigger/route.tsx:137-169 | the emailed entries are exactly the freshly minted ones with an address, and none without a sender; a reused token is never emailed |
| DeathTrigger.NotificationsOfMailed | apps/api/app/webhooks/death-trigger/route.tsx:168-186 | the sends are one death notification per emailed entry, in loop order, carrying its access link |
| DeathTrigger.MintToken | apps/api/app/webhooks/death-trigger/route.tsx:148-166 | a contact without a token gets one new row holding a 64-hex-character token, and an entry with that token |
| DeathTrigger.ServeContact | apps/api/app/webhooks/death-trigger/route.tsx:127-206 | one contact: an existing token is reused with no new row and no send; otherwise one is minted and announced |
| DeathTrigger.NotifyContacts | apps/api/app/webhooks/death-trigger/route.tsx:127-213 | the loop: old token rows untouched; one new row per served contact without one; one entry per non-throwing contact, each with its row's token; sends as above |
| DeathTrigger.ProcessDeath | apps/api/app/webhooks/death-trigger/route.tsx:104-232 | the profile becomes DECEASED with the date before any token work; the reply counts the entries and lists their links |
| DeathTrigger.Trigger | apps/api/app/webhooks/death-trigger/route.tsx:41-244 | an early reply changes nothing; otherwise the status flip, the token loop and the summary as above |
| Insurance.InviteTally | apps/api/app/webhooks/insurance/route.tsx:44-114 | every new user counts once, as processed or failed; one error per failure; no failures without throwing calls |
| Insurance.InviteRows | apps/api/app/webhooks/insurance/route.tsx:62-79 | old invitations are untouched; new ones are exactly the non-throwing entries' emails, with that entry's name and reference |
| Insurance.InviteMailCount | apps/api/app/webhooks/insurance/route.tsx:62-106 | one email per invitation created, none without a sender; an existing invitation is not emailed again |
| Insurance.InviteMailTargets | apps/api/app/webhooks/insurance/route.tsx:81-97 | every email is an invitation with the sign-up link, to an address whose invitation this run created |
| Insurance.InviteSettled | apps/api/app/webhooks/insurance/route.tsx:62-70 | entries whose invitations exist already write nothing and send nothing |
| Insurance.InviteTwice | apps/api/app/webhooks/insurance/route.tsx:59-114 | the same batch again creates nothing, sends nothing and counts every entry as processed |
| Insurance.DisableTally | apps/api/app/webhooks/insurance/route.tsx:119-161 | every disabled user counts once, as processed or failed, with one error per failure |
| Insurance.DisableOnlyStatus | apps/api/app/webhooks/insurance/route.tsx:149-152 | the loop writes only the status, always to INACTIVE; identities and death dates stay |
| Insurance.DisableFound | apps/api/app/webhooks/insurance/route.tsx:123-155 | a non-throwing entry whose lookup finds a profile leaves it INACTIVE, even one that was DECEASED |
| Insurance.DisableChangedWasFound | apps/api/app/webhooks/insurance/route.tsx:136-152 | a profile whose status changed was found by a non-throwing entry; a miss mutates nothing |
| Insurance.DisableKeepsValid | apps/api/app/webhooks/insurance/route.tsx:149-152 | the status writes keep the profile table well formed: unique Clerk ids, every DECEASED profile dated, and no dated profile ACTIVE |
| Insurance.DisableKeepsDeathDate | apps/api/app/webhooks/insurance/route.tsx:149-152 | a DECEASED profile that a disabled entry finds ends INACTIVE with its death date kept, so "dated only when DECEASED" no longer holds |
| Insurance.InviteAll | apps/api/app/webhooks/insurance/route.tsx:58-115 | the loop leaves exactly the invitations, tally and sends of the per-entry specification |
| Insurance.DisableAll | apps/api/app/webhooks/insurance/route.tsx:118-162 | the loop leaves exactly the profiles and tally of the per-entry specification |
| Insurance.Sync | apps/api/app/webhooks/insurance/route.tsx:38-180 | an unparsed body is 500 and changes nothing; otherwise invitations first, then deactivations, and always both tallies; an absent list counts nothing |

## Left out

- Foreign keys and cascades are not modelled. Deleting a contact, document, folder or account
  leaves its grant rows and token rows in the model. The schema that would say what cascades is
  not part of this model.
- Blob storage `put` and `del` are left out. A delete's outcome is an unconstrained boolean that
  nothing depends on, so a failure is swallowed. `deleteMediaFolder` loops over the folder's
  items to delete their blobs; since every outcome is swallowed, that loop is left out.
- `include` and `_count` shapes are reduced. Lists return row ids in order, and the single-row
  reads return the row with its access-list id sets. Actions that return the created or updated
  row return its id instead.
- DocumentActions.UploadDocumentFile, MediaActions.UploadMediaFile: they return the key the file
  is put under, in place of the URL that blob storage's `put` answers with.
- Database.Store.Valid: the design pairs DECEASED with a set `deceasedAt` in both directions.
  The code keeps only one direction: every DECEASED profile has a date. The insurance sync sets a
  found DECEASED profile to INACTIVE and leaves its date (insurance/route.tsx:149-152). The model
  follows the code and states the part of the converse that survives: a dated profile is never
  ACTIVE. Insurance.DisableKeepsDeathDate shows the converse failing.
- A store call that throws outside the two webhook loops is not modelled. In the source that is
  the catch-all error envelope or the 500 reply. The store calls are taken to succeed, except
  where the primitive's own meaning says it fails (missing row, repeated key).
- Parsing `deathDate`, an invalid date, `toISOString` and the clock are opaque `Timestamp`
  parameters.
- JSON body parsing becomes an `Option` payload.
- `auth()` becomes the caller parameter.
- Logging, analytics, email templates and the constant `GET` health checks are left out.
- `randomBytes` is an oracle: any 32 bytes. Token uniqueness across rows is not modelled; the
  column's unique constraint is not part of this model.
- An email send is recorded as an attempt in `Mailer.sent`, and its delivery outcome is ignored,
  as every caller ignores it.
- Concurrency is left out. Each action runs atomically, apart from the two store statements of a
  replace, whose partial effect is modelled.
- Insurance.InviteAll: a `newUsers` entry's email is a required string, so an entry without an
  email is not modelled.
- Database.Store.GroupByCategory: `groupBy` leaves the row order open; the model lists rows in
  category order. Both readers give results that do not depend on that order.
- DeathTrigger.NotifyContacts: `faulty` stands for any throwing store call for that contact (the
  token lookup or the insert). A throw after a successful insert is not separated from one before
  it, so such a contact is modelled as having no new row.
- DeathTrigger.NotifyContacts: the contacts are served in an order the model leaves open, where
  the source follows the order of `trustedContacts`.
