# s3mgr core, modelled in Dafny

s3mgr is a Go web service. Users keep one or more S3-compatible storage
configurations, move files to and from them, and administrators manage user
accounts and read an audit trail. This project models the service's
sequential core and proves what it does. Badger (the key-value store), the
AWS and MinIO clients, bcrypt, JWT, the clock and the random source are all
replaced by inputs.

The modules follow the source files:

- `Outcomes` (outcomes.dfy): `Option` and `Result`.
- `Text` (text.dfy): the Go library behaviour the core relies on.
  - 64-bit signed `int` wrap-around.
  - `strings.TrimPrefix` and `strings.Replace(.., 1)`.
  - `strconv.Atoi`.
  - `fmt.Sscanf("%d")`, which leaves its target unchanged when nothing can be read.
- `KeyOrder` (key_order.dfy): badger's byte-wise ordered keyspace. Writing a key inserts it in order; deleting one removes it.
- `Registry` (registry.dfy): the storage-configuration registry of s3.go.
  - The functions over a `Db` that state what each handler does. A `Db` pairs the sorted key list with the key-to-record map.
  - The class `ConfigStore`, whose methods loop over listings and rewrite records as the handlers do.
- `RegistryLaws` (registry_laws.dfy): what the registry operations do to a user's default flag. They keep "exactly one default per user" in some places and break it in others.
- `Transfer` (transfer.dfy): the transfer engine of s3.go.
  - Tenant key namespacing.
  - The `UploadFile` strategy choice and multipart part loop, run against a scripted backend.
  - The `ListFiles` prefix stripping and pagination.
- `Audit` (audit.dfy): audit/audit.go.
  - Recording an event.
  - The filter / offset / limit query, then the newest-first sort.
  - The incident query.
  - `GetStringValue`.
- `AuditHandlers` (audit_handlers.dfy): the query-parameter normalisation and offset arithmetic of audit/handlers.go.
- `Auth` (auth.go):
  - The user registry keyed `user:`+username.
  - Login checks, registration, the admin-guarded user handlers and password change.
  - CSV user import. The CSV reader refuses a file whose records differ in width, so rows are imported all or none.
  - The bearer-token middleware.
- `Configuration` (config/config.go): zero-value defaulting, environment overrides, and their order when the configuration is loaded.
- `MinioAdmin` (minio_admin.go): MinIO provisioning.
  - Environment defaults and the SSL flag.
  - Scheme stripping and user-id suffix naming.
  - The random secret and the hex id.
  - The sequence of admin calls.
  - The returned configuration.

In a few places the code does less than its comments, messages or the one-default rule suggest, or does something easy to misread. The model follows the code in each:

- **Configuration listing.** The listing drops the secret key. It masks the *access* key to at most its first four characters plus `****` (s3.go:752); it does not mask a prefix of the secret.
- **Upload threshold.** Multipart upload starts strictly *above* 5 MiB (s3.go:296). A file of exactly 5 MiB goes out as one `PutObject`.
- **Read errors during upload.**
  - A read error on an empty read returns without aborting the multipart session (s3.go:321-330).
  - A read that returns no bytes and no error is sent as an empty part (s3.go:313-337).
- **Default on delete.** The new default after a delete is the first other configuration in *key order* (s3.go:175-181), not in creation order.
- **One default per user.** The code does not always keep it:
  - `setDefaultConfig` with an unknown id clears every default.
  - `CreateConfig` keeps a client-supplied default flag.
  - `AutoConfigureMinIO` adds a default without clearing the others.
- **Looking up a configuration.** `GetConfigByID` looks the id up under the caller's own key prefix. Another user's configuration is therefore "not found" rather than "forbidden". The 403 arises only through the prefix collision in Findings.
- **Out-of-range pages.** Pages are not always empty, and tenant prefixes do not always keep tenants apart: see Findings.

## Model

| member | source | states |
|---|---|---|
| Text.Wrap64 | audit/handlers.go:125 | Go 64-bit `int` arithmetic: the result is in the signed 64-bit range, equals the exact value when that fits, and differs from it by a multiple of 2^64 |
| Text.TrimPrefix | minio_admin.go:64-65 | `strings.TrimPrefix`: when `s` starts with `p`, `p` followed by the result is `s`; otherwise the result is `s` |
| Text.IndexOf | auth.go:756 | the first position where the pattern occurs (no earlier position matches), or -1 when it occurs nowhere |
| Text.ReplaceFirstSpec | auth.go:756 | `strings.Replace(s, pat, repl, 1)` leaves `s` alone when `pat` does not occur and otherwise replaces exactly its first occurrence |
| Text.Atoi | audit/handlers.go:115 | a value `strconv.Atoi` accepts comes from a non-empty string and fits Go's 64-bit `int` |
| Text.AtoiFormatInt | audit/handlers.go:115-121 | round trip: `Atoi` reads back every 64-bit integer written in decimal |
| Text.SkipScanSpace | s3.go:483 | the scanner's space skipping leaves a suffix of the input that does not start with a space |
| Text.LeadingDigits | s3.go:483 | the digits `%d` consumes: the longest all-digit prefix, followed by a non-digit or the end |
| Text.ScanInt | s3.go:482-487 | `fmt.Sscanf("%d")` either leaves the target as it was or stores a 64-bit value |
| Text.ScanIntFormatInt | config/config.go:146 | round trip: a decimal 64-bit number followed by a non-digit scans back to that number, whatever the target held |
| KeyOrder.LessIrreflexive | s3.go:85-98 | badger's key order is irreflexive |
| KeyOrder.LessTransitive | s3.go:85-98 | badger's key order is transitive |
| KeyOrder.LessTotal | s3.go:85-98 | any two distinct keys are ordered one way or the other |
| KeyOrder.SortedDistinct | s3.go:85-98 | an iteration never visits a key twice |
| KeyOrder.Insert | s3.go:141 | `txn.Set` on the keyspace: still sorted, exactly the old keys plus the new one, unchanged (same length) when the key was there, one longer otherwise |
| KeyOrder.Remove | s3.go:202 | `txn.Delete` on the keyspace: still sorted, exactly the old keys minus the deleted one, unchanged when it was absent |
| Registry.ConfigKeyInjective | s3.go:140 | two ids of one user never share a store key |
| Registry.Scan | s3.go:85-98 | a prefix iteration visits exactly the stored keys that carry the prefix |
| Registry.ScanSorted | s3.go:85-98 | and visits them in key order |
| Registry.Listing | s3.go:77-104 | `getUserConfigs`: one record per key under the user's prefix, in key order, each the record stored under that key |
| Registry.OwnedOnly | s3.go:77-104 | the corrected listing's filter keeps a record exactly when it was listed and belongs to the user |
| Registry.Put | s3.go:128-143 | `saveConfig` stores the stamped record under the key made from its own user id and id, keeps the store well formed, and leaves the key order alone when the key existed |
| Registry.Del | s3.go:199-204 | `deleteConfig` removes exactly that key and keeps the store well formed |
| Registry.FirstWithId | s3.go:222-229 | the first listed record with the id; none before it has the id, and there is none exactly when no record has it |
| Registry.FirstOtherThan | s3.go:175-181 | the first listed record whose id differs from the given one, and none when all share it |
| Registry.FirstDefault | s3.go:233-251 | the first flagged record, with no flagged record before it |
| Registry.DefaultConfig | s3.go:233-251 | `getDefaultConfig` fails with "no configurations found" exactly when there are none; it returns the first flagged record in listing order when one is flagged, else the first record |
| Registry.ClearDefaultsEffect | s3.go:213-221 | the clearing phase unflags and re-stamps exactly the listed records that were flagged; the key set and every other record are unchanged |
| Registry.SetDefault | s3.go:207-231 | `setDefaultConfig` never adds or removes keys (its flags are stated by RegistryLaws.SetDefaultFlags) |
| Registry.Redact | s3.go:752 | a list entry masks the access key to at most its first 4 characters followed by `****`, carries no secret, and copies every other field |
| Registry.ConfigViews | s3.go:738-763 | `GetConfigs` answers one masked entry per listed record, in listing order |
| Registry.ResolveConfig | s3.go:494-504 | with a `config_id` it succeeds exactly when the caller's key for that id is stored, and returns that record; without one it succeeds exactly when the caller has a configuration |
| Registry.ExportRow | s3.go:656-670 | an exported row has one field per header column |
| Registry.ExportCsv | s3.go:654-671 | the export is the header followed by one row per configuration |
| Registry.ConfigStore.constructor | s3.go:43-45 | a new store is empty and well formed |
| Registry.ConfigStore.GetUserConfigs | s3.go:77-104 | the iteration loop returns exactly `Listing` |
| Registry.ConfigStore.SaveConfig | s3.go:128-143 | the new state is `Put` of the old one |
| Registry.ConfigStore.DeleteKey | s3.go:199-204 | the new state is `Del` of the old one |
| Registry.ConfigStore.ClearListedDefaults | s3.go:212-220 | the clearing loop leaves the keys and records exactly as `ClearDefaults` says |
| Registry.ConfigStore.FlagFirstWithId | s3.go:222-229 | the flagging loop rewrites only the first listed record with the id, flagged and stamped; with no such record nothing changes |
| Registry.ConfigStore.SetDefaultConfig | s3.go:207-231 | the two loops together leave the state `SetDefault` gives |
| Registry.ConfigStore.ListsDefaultWithId | s3.go:167-173 | the scan finds a flagged listed record with the id exactly when one exists |
| Registry.ConfigStore.PromoteFirstOther | s3.go:175-181 | the promotion loop leaves the state `PromoteFirstOtherEffect` gives |
| Registry.ConfigStore.DeleteConfig | s3.go:146-184 | reply and new state are those of `DeleteConfigEffect`, whose laws are in RegistryLaws |
| Registry.ConfigStore.CreateConfig | s3.go:782-826 | reply and new state are those of `CreateConfigEffect` |
| Registry.ConfigStore.UpdateConfigAsWritten | s3.go:828-907 | reply and new state are those of the handler as written, including the copied delete logic |
| Registry.ConfigStore.UpdateConfig | s3.go:828-869 | reply and new state of the handler stopped after the save (the corrected update) |
| Registry.ConfigStore.AutoConfigureMinIO | s3.go:911-945 | reply and new state are those of `AutoConfigureEffect` |
| RegistryLaws.KeyHasPrefix | s3.go:140 | every key `saveConfig` writes for a user lies under that user's listing prefix |
| RegistryLaws.UserKeysAreOwnKeys | s3.go:85-98 | the keys listed for a user are exactly the stored keys with the user's prefix; the listing is empty exactly when there are none |
| RegistryLaws.OwnedKey | s3.go:140 | when the prefix holds only the user's own records, each lies under the key made from its id |
| RegistryLaws.OwnedListingIds | s3.go:77-104 | when the prefix holds only the user's own records, no two listed records share an id |
| RegistryLaws.SetDefaultKeys | s3.go:207-231 | `setDefaultConfig` keeps the set of stored keys |
| RegistryLaws.SetDefaultAt | s3.go:207-231 | per record: settings unchanged; under the user's prefix, flagged exactly when it is the target; outside the prefix, untouched |
| RegistryLaws.ClearedAt | s3.go:213-221 | per record after the clearing phase: settings unchanged, unflagged under the prefix, untouched outside it |
| RegistryLaws.SetDefaultWellFormed | s3.go:207-231 | `setDefaultConfig` keeps the store well formed |
| RegistryLaws.SetDefaultFlags | s3.go:207-231 | afterwards the user's defaults are exactly the target's key, or none at all when the id is unknown; the user's keys are unchanged |
| RegistryLaws.SetDefaultOnlyFlags | s3.go:207-231 | `setDefaultConfig` changes no record's settings and touches no record outside the user's prefix |
| RegistryLaws.DeletePromotesFirstOther | s3.go:162-181 | deleting the default of two or more configurations removes it and leaves the first other listed configuration as the only default, when only the user's own records lie under the user's key prefix |
| RegistryLaws.PromoteTarget | s3.go:175-181 | setting a stored configuration as default makes it the user's only default, when only the user's own records lie under the user's key prefix |
| RegistryLaws.DelKeys | s3.go:199-204 | deleting a key removes it from the user's keys and defaults and nothing else |
| RegistryLaws.DeleteNonDefault | s3.go:146-184 | deleting a non-default of two or more configurations is a plain delete |
| RegistryLaws.DeletePreservesOneDefault | s3.go:146-184 | `DeleteConfig` keeps exactly one default per user, when only the user's own records lie under the user's key prefix; with at most one configuration it answers 400 and changes nothing |
| RegistryLaws.DeleteNonDefaultKeepsOne | s3.go:162-174 | deleting a non-default keeps the user's single default, when only the user's own records lie under the user's key prefix |
| RegistryLaws.PutKeys | s3.go:128-143 | saving adds the record's key to the user's keys, and to the defaults exactly when it is flagged |
| RegistryLaws.CreateFirstIsDefault | s3.go:811-815 | a user's first configuration is created (201) as their only default |
| RegistryLaws.ClientFailureByType | s3.go:51-75 | on create, and on update of a stored configuration, a failed session is answered 400 exactly for a `minio` configuration and 500 (the recovered `session.Must` panic) exactly for any other type, and nothing is stored |
| RegistryLaws.CreateKeepsRequest | s3.go:791-815 | a later configuration is stored under the server's id and user with the request's settings and default flag, stamped now |
| RegistryLaws.CreateUnflaggedKeepsOneDefault | s3.go:811-815 | creating an unflagged configuration keeps exactly one default |
| RegistryLaws.CreateFlaggedBreaksOneDefault | s3.go:811-815 | creating a flagged configuration next to an existing default leaves two defaults |
| RegistryLaws.UpdateRewritesInPlace | s3.go:844-866 | the corrected update answers 200, rewrites only the target (id, owner, creation time and flag kept; other settings, the secret included, from the request; stamped now) and keeps the user's keys and defaults |
| RegistryLaws.UpdatePreservesOneDefault | s3.go:844-866 | the corrected update keeps exactly one default |
| RegistryLaws.UpdateAsWrittenDeletesTarget | s3.go:866-906 | as written, updating one of two or more configurations answers "Configuration deleted successfully" and removes it |
| RegistryLaws.PromoteKeepsKeys | s3.go:175-181 | the promotion step keeps the set of stored keys |
| RegistryLaws.UpdateAsWrittenRejectsLast | s3.go:866-888 | as written, updating a user's only configuration saves it and then answers 400 "Cannot delete the last configuration" |
| RegistryLaws.AutoConfigureAddsDefault | s3.go:911-945 | the MinIO auto-configuration answers 200 and adds its configuration to the defaults, leaving two when one existed |
| RegistryLaws.ProvisionedAddsDefault | s3.go:911-945 | saving the configuration the MinIO provisioning returns answers 200 and adds its key to the user's defaults, leaving two when one existed |
| RegistryLaws.ConfigByIdAccess | s3.go:766-780 | `GetConfigByID` answers 200 exactly when it returns a record, 404 exactly when the caller's key is missing; a returned record is the caller's or the caller is an admin; 403 occurs only when another user's record sits under the caller's prefix |
| RegistryLaws.ListingCrossesUsers | s3.go:85-98 | user `a` lists a configuration of user `a_b` and is refused 403 on it |
| RegistryLaws.SetDefaultCrossesUsers | s3.go:207-221 | user `a` setting a default clears the only default of user `a_b`, whose configuration lies under `a`'s prefix: `a_b` keeps the configuration and has no default |
| RegistryLaws.OwnedConfigsExact | s3.go:77-104 | the corrected listing holds exactly the user's own stored records, and equals the listing when no other user's record sits under the prefix |
| RegistryLaws.ImportRowOfExportRow | s3.go:656-723 | importing an exported row gives back the configuration |
| RegistryLaws.ImportRowsOfExport | s3.go:654-724 | importing the exported rows gives back the configurations in order |
| RegistryLaws.ImportOfExport | s3.go:654-725 | the CSV import of an export gives back the configurations; an export of none is refused as "Invalid CSV" |
| RegistryLaws.UniformImportRows | s3.go:711-724 | rows of one width give a configuration each when they have at least 13 fields, and none otherwise |
| RegistryLaws.ImportAllOrNothing | s3.go:704-724 | as the CSV reader accepts only records as wide as the header, an import of two or more records yields one configuration per data row when the header has at least 13 fields, and none otherwise |
| Transfer.ObjectKey | s3.go:289-290 | an object key starts with `users/{id}/`, and stripping that gives back the file name |
| Transfer.ObjectKeyInjective | s3.go:289-290 | one user's distinct file names give distinct keys |
| Transfer.TenantsShareKeys | s3.go:289-290 | the object key of user `a`'s name `b/x` is that of user `a/b`'s file `x`, and lies under user `a`'s prefix |
| Transfer.ObjectKeysSeparateTenants | s3.go:289-290 | for user ids without `/`, equal keys mean the same user and the same file |
| Transfer.SlashInLonger | s3.go:289-290 | when two users' keys coincide, the longer user id contains `/` |
| Transfer.Sends | s3.go:331-337 | one `UploadPart` call per read sent |
| Transfer.SendsAt | s3.go:331-337 | part `j + 1` carries the bytes of read `j`, under the same key and upload id |
| Transfer.SentKeys | s3.go:298-387 | every call of a multipart upload names the same object key |
| Transfer.PartsOf | s3.go:354-358 | one completed part per successful upload |
| Transfer.PartsAt | s3.go:354-358 | the completed parts are numbered 1, 2, 3… in stream order with each upload's ETag |
| Transfer.PartLoop | s3.go:312-362 | the part loop sends reads in order as parts 1, 2, …; it stops at a clean end of stream, at an empty read reporting an error (no abort), or at a failed part (abort with the same upload id) |
| Transfer.UploadMultipart | s3.go:296-388 | calls, reply and audit note of a multipart upload: initiate, the parts, then exactly one of nothing, an abort or the completion; every call names the key |
| Transfer.ReadErrorOutcome | s3.go:321-330 | a read error after `k` parts answers 500 after the parts sent so far, with no abort and an audit note for part `k + 1` |
| Transfer.PartErrorOutcome | s3.go:338-353 | a failed part `k + 1` is followed by an abort under the same upload id and no completion |
| Transfer.StreamDoneOutcome | s3.go:364-388 | at the end of the stream the completion lists every part; its failure is answered without an abort |
| Transfer.UploadFile | s3.go:256-412 | config, client and file guards answer without backend calls, a failed session giving the nil-client 500 for `minio` and the recovered panic otherwise; at most 5 MiB gives one `PutObject`; more gives the multipart outcome; every call names `users/{id}/`+file name |
| Transfer.SentPartsBounded | s3.go:313-337 | with reads of at most 5 MiB, part `j` is numbered `j + 1` and at most 5 MiB long, and is empty only for a zero-byte read without error |
| Transfer.Shown | s3.go:519-531 | the listing shows every object whose stripped name is non-empty, and only such objects, with the prefix removed |
| Transfer.ShowObjects | s3.go:519-531 | the listing loop builds exactly `Shown` |
| Transfer.ListingShowsNestedTenant | s3.go:519-531 | user `a`'s listing of a bucket holding user `a/b`'s file `x` shows that file to `a` as `b/x` |
| Transfer.PageQuery | s3.go:480-493 | page below 1 becomes 1; a page size outside 1..100 becomes 10; valid values are kept |
| Transfer.PageQueryReadsBack | s3.go:480-493 | every valid page and page size written in decimal is read back as itself |
| Transfer.PageWindowAsWritten | s3.go:532-541 | when the slice is taken, its bounds lie within the item count |
| Transfer.PageWindow | s3.go:532-541 | the corrected window lies within the items and holds at most a page |
| Transfer.PagesTile | s3.go:532-541 | pages start at 0, each starts where the previous ends, full pages hold a page size, and pages past the end are empty |
| Transfer.PageWindowAgrees | s3.go:532-541 | without overflow, the window as written equals the corrected one |
| Transfer.PageOverflowPanics | s3.go:533-541 | page 2^61+1 of size 4 makes the slice bounds negative: the handler panics |
| Transfer.PageOverflowRestarts | s3.go:533-541 | page 2^62+1 of size 4 wraps to the first page instead of an empty one |
| Transfer.OverflowPagesReachable | s3.go:480-493 | both overflowing pages are accepted from the query string |
| Transfer.ListFiles | s3.go:477-550 | config, client and list failures are answered as such, a failed session as in `UploadFile`; otherwise the reply holds the shown files' window as written, their total, the normalised page values and the config's id and name |
| Audit.GetStringValue | audit/audit.go:180-188 | nil gives "" and a string gives itself |
| Audit.StringValueReadsBack | audit/audit.go:180-188 | a formatted 64-bit integer reads back through `Atoi`; a formatted boolean is "true" exactly when true |
| Audit.NewLog | audit/audit.go:43-67 | the record's error is the error's text, or "" without one; id and timestamp come from the clock; user, name, session, client address and user agent come from the request context; the other fields are the arguments |
| Audit.Matching | audit/audit.go:98-113 | the filter keeps at most the stored records |
| Audit.MatchingExact | audit/audit.go:98-113 | a record passes exactly when each non-empty filter field and each non-zero time bound holds |
| Audit.MatchingAppend | audit/audit.go:90-113 | filtering distributes over concatenation of the store |
| Audit.Skip | audit/audit.go:115-118 | the skipped count never exceeds the matches |
| Audit.Page | audit/audit.go:115-134 | a contiguous run of the matches after the skipped ones; at most `limit` long when the limit is positive, and reaching the end when shorter or when there is no limit |
| Audit.SelectedSpec | audit/audit.go:98-134 | every selected record is stored and passes the filter; a positive limit bounds the count; offset 0 and no limit select every match |
| Audit.PageWithin | audit/audit.go:115-134 | a page holds only matches |
| Audit.PagesConcatenate | audit/audit.go:115-134 | two consecutive pages of `limit` make the page of `2 * limit` at the first offset |
| Audit.PageFull | audit/audit.go:131-133 | once the page is full, later records cannot change it (the early break) |
| Audit.PageStep | audit/audit.go:115-125 | one more match joins the page exactly when the offset is used up and the page is not full |
| Audit.MatchingStep | audit/audit.go:98-113 | one more stored record joins the matches exactly when it passes the filter |
| Audit.VisitedFollows | audit/audit.go:98-125 | the callback's counters after each record are those `Matching` and `Page` give for the prefix read so far |
| Audit.QueryDone | audit/audit.go:131-134 | when the iteration stops early with a full page, the page is already the whole selection |
| Audit.Select | audit/audit.go:90-134 | the iteration selects exactly `Page(Matching(..))` of the store |
| Audit.Visit | audit/audit.go:98-128 | one callback step updates skip count, kept records and count as `Visited` says |
| Audit.InSession | audit/audit.go:164-166 | the incident query keeps exactly the stored records of the session |
| Audit.InKeyOrder | audit/audit.go:84-90 | the iteration visits the records in key order, one per key |
| Audit.SortNewestFirst | audit/audit.go:138-141 | the sort returns the same records, newest first |
| Audit.InsertionPoint | audit/audit.go:138-141 | the insertion point lies after every record at least as new and before the first older one |
| Audit.InsertKeepsRecords | audit/audit.go:138-141 | inserting adds exactly one record |
| Audit.InsertKeepsOrder | audit/audit.go:138-141 | inserting at that point keeps newest-first order |
| Audit.AuditTrail.constructor | audit/audit.go:36-40 | a new trail is empty |
| Audit.AuditTrail.LogEvent | audit/audit.go:43-75 | the new record is stored under `audit:`+its id, and that key is inserted in key order |
| Audit.AuditTrail.GetAuditLogs | audit/audit.go:78-143 | the answer holds the selection made in store order, as a multiset, newest first |
| Audit.AuditTrail.GetAuditLogsByIncident | audit/audit.go:146-177 | the answer is the session's records in store order |
| AuditHandlers.LimitFromQuery | audit/handlers.go:88-118 | `page_size` replaces `limit` when present; a value read as positive is taken, anything else gives 10 |
| AuditHandlers.PageFromQuery | audit/handlers.go:119-124 | a page read as positive is taken, anything else gives 1 |
| AuditHandlers.QueryReadsBack | audit/handlers.go:88-124 | every positive limit and page written in decimal is read back, and `page_size` overrides `limit` |
| AuditHandlers.Offset | audit/handlers.go:125 | the corrected offset is never negative and is 0 on the first page |
| AuditHandlers.PagesFollow | audit/handlers.go:125 | consecutive pages start `limit` apart and together are the double-length page |
| AuditHandlers.OffsetAgrees | audit/handlers.go:125 | without overflow, the offset as written is the corrected one |
| AuditHandlers.OffsetWrapsNegative | audit/handlers.go:125 | page 2^61+1 of 4 gives offset -2^63, so the first page comes back instead of an empty one |
| AuditHandlers.WrapQueryReadsBack | audit/handlers.go:113-124 | that page and limit are accepted from the query string |
| AuditHandlers.OffsetWrapsToMin | audit/handlers.go:125 | page 2^61+1 of 4 wraps the offset to -2^63 |
| AuditHandlers.OffsetWrapsToZero | audit/handlers.go:125 | page 2^62+1 of 4 wraps the offset to 0 |
| AuditHandlers.FilterOffsetAsWritten | audit/handlers.go:251-254 | the filter offset is 0 up to page 1 and the corrected offset beyond it when no overflow occurs |
| AuditHandlers.OffsetAgreesLater | audit/handlers.go:251-254 | beyond page 1 without overflow, the two handlers' offsets agree |
| AuditHandlers.NormalLimit | audit/handlers.go:242-244 | a positive limit is kept; any other becomes 100 |
| AuditHandlers.ReadLimit | audit/handlers.go:88-118 | the reassignments compute `LimitFromQuery` |
| AuditHandlers.ReadPage | audit/handlers.go:119-124 | the reassignments compute `PageFromQuery` |
| AuditHandlers.FilterOffset | audit/handlers.go:251-254 | the reassignments compute the filter offset as written |
| AuditHandlers.GetAuditLogsHandler | audit/handlers.go:69-170 | 401 without a user and 400 for a bad time, neither recording anything; otherwise the query is recorded, and the reply holds the selection at the offset as written, newest first, with the total of all matches and the normalised limit and page |
| AuditHandlers.PostAuditLogsFilterHandler | audit/handlers.go:208-267 | 401, bad body and bad times are answered without recording; otherwise the normalised request is recorded and answered with its selection newest first |
| AuditHandlers.GetAuditLogsByIncidentHandler | audit/handlers.go:173-205 | 401 without a user and 400 without a session id, neither recording anything; otherwise the query is recorded and the session's records are returned |
| Auth.ResponseForgetsOnlyPassword | auth.go:32-41 | two users have the same reply view exactly when they differ at most in the password hash |
| Auth.UserKeyInjective | auth.go:256 | distinct usernames have distinct `user:` keys |
| Auth.FindNamed | auth.go:253-271 | a user found by name carries that name |
| Auth.Authenticate | auth.go:143-170 | login is accepted exactly when the user exists, is active and the password matches its hash; an existing inactive user is told "Account is inactive"; every other refusal is "Invalid credentials" |
| Auth.CreateRefusal | auth.go:199-227 | a creation goes ahead exactly when the request binds, the name is free and hashing succeeds; a binding failure gives 400, an existing name 409 |
| Auth.CreateTwiceConflicts | auth.go:211-220 | creating the same username again is refused with 409 |
| Auth.RowsUsers | auth.go:399-417 | one user per row of at least 8 fields, each with an empty password; shorter rows are skipped |
| Auth.CsvUsers | auth.go:399-417 | the row loop, after the header, builds exactly `RowsUsers` |
| Auth.UniformRowsUsers | auth.go:406-417 | rows of one width give a user each when they have at least 8 fields, and none otherwise |
| Auth.CsvAllOrNothing | auth.go:399-417 | as the CSV reader accepts only records as wide as the header, an import of two or more records yields one user per data row when the header has at least 8 fields, and none otherwise |
| Auth.SaveAllKeyed | auth.go:419-425 | after saving, every record still sits under `user:`+its own name |
| Auth.SaveAllLastWins | auth.go:419-425 | saving a list stores exactly the old keys plus those of the list, the last user of each name wins, and other users are untouched |
| Auth.Authorize | auth.go:747-769 | an empty header is refused, an invalid token is refused, and a valid token admits the claims' user, user id and admin flag |
| Auth.SchemeStripped | auth.go:756 | `Bearer `+token yields the token |
| Auth.BareTokenKept | auth.go:756 | a header without `Bearer ` is taken whole as the token |
| Auth.SchemeStrippedAnywhere | auth.go:756 | the first `Bearer ` is removed wherever it occurs |
| Auth.UserStore.constructor | auth.go:84-90 | a new registry is empty |
| Auth.UserStore.Login | auth.go:133-197 | refusals change nothing; an accepted login changes only the user's last-login time and answers the token or 500 |
| Auth.UserStore.Register | auth.go:199-251 | refusals change nothing; otherwise the new active user is stored under `user:`+name with the request's admin flag, answering 201 |
| Auth.UserStore.CreateUser | auth.go:430-501 | no caller 401 and non-admin 403, neither changing anything; otherwise as for registration, with the id `user_`+the clock's nanoseconds |
| Auth.UserStore.UpdateUser | auth.go:526-587 | 401, 403, 404 and 400 change nothing; otherwise only email, admin flag, active flag and update time change |
| Auth.UserStore.DeleteUser | auth.go:589-631 | 401, 403, self-deletion (400) and a missing user (404) change nothing; otherwise exactly that key is removed |
| Auth.UserStore.ChangePassword | auth.go:633-684 | writes only when the current password matches and hashing succeeds, then changes only the hash and update time |
| Auth.UserStore.SaveUsers | auth.go:419-425 | the save loop leaves the store `SaveAll` gives |
| Auth.UserStore.ImportUsers | auth.go:370-428 | a missing file, bad JSON, bad CSV or fewer than 2 CSV records change nothing; otherwise the imported users are saved and counted |
| Configuration.Defaulted | config/config.go:91-135 | every defaulted field is set afterwards; set fields, the secret, the flags and the MinIO sections are kept |
| Configuration.DefaultsOfEmpty | config/config.go:91-135 | the defaults are info, logs/s3mgr.log, 100, 30, 30, json, 8081, 0.0.0.0, 30, 30, s3mgr.db and 24 |
| Configuration.DefaultsFixComplete | config/config.go:91-135 | defaulting changes nothing exactly when every defaulted field is set, and is idempotent |
| Configuration.OverrideFrame | config/config.go:137-169 | fields without a variable are never changed |
| Configuration.OverrideUnset | config/config.go:137-169 | with no variables set nothing changes |
| Configuration.OverrideIdempotent | config/config.go:137-169 | applying the environment twice is applying it once |
| Configuration.PortIdempotent | config/config.go:145-147 | the port override is idempotent |
| Configuration.PortFromEnv | config/config.go:145-147 | `SERVER_PORT` written in decimal sets the port |
| Configuration.EnvWins | config/config.go:62-68 | a set variable wins over file and default; an unset one leaves the file's value or its default |
| Configuration.EnvPortNotDefaulted | config/config.go:62-68 | `SERVER_PORT=0` yields port 0 because the environment comes after the defaults |
| Configuration.Config.constructor | config/config.go:80-83 | a configuration holds the parsed settings |
| Configuration.Config.SetDefaults | config/config.go:91-135 | the assignments leave `Defaulted` of the old value |
| Configuration.Config.OverrideWithEnv | config/config.go:137-169 | the assignments leave `Overridden` of the old value |
| Configuration.DefaultLogging | config/config.go:92-110 | the logging assignments compute the logging defaults |
| Configuration.DefaultServer | config/config.go:112-124 | the server assignments compute the server defaults |
| Configuration.OverrideLogging | config/config.go:139-144 | `LOG_LEVEL` and `LOG_FILE` override |
| Configuration.OverridePort | config/config.go:145-147 | `SERVER_PORT` override through `Sscanf` |
| Configuration.OverrideSecret | config/config.go:148-150 | `JWT_SECRET` override |
| Configuration.OverrideAdmin | config/config.go:151-159 | the MinIO admin overrides |
| Configuration.OverrideBucket | config/config.go:160-168 | the MinIO default-bucket overrides |
| Configuration.LoadFromFile | config/config.go:74-89 | an unreadable or unparsable file is an error; otherwise a fresh defaulted configuration |
| Configuration.Globals.constructor | config/config.go:49-52 | no configuration and no file name at start |
| Configuration.Globals.LoadConfig | config/config.go:56-72 | the file name is the flag value or `config.yaml`; on success the global is the file's settings, defaulted and then overridden |
| Configuration.Globals.ReloadConfig | config/config.go:177-187 | the same file is reloaded: on error nothing changes; otherwise the global is replaced and the logger's answer is returned |
| MinioAdmin.GetEnvWithDefault | minio_admin.go:47-52 | a non-empty variable's value, else the default |
| MinioAdmin.SslFlag | minio_admin.go:43 | SSL is on exactly when the variable is `true` |
| MinioAdmin.BuiltInSettings | minio_admin.go:30-45 | with no variables, the built-in admin and bucket settings |
| MinioAdmin.AdminHostStripsScheme | minio_admin.go:64-65 | a bare host, `http://`+host and `https://`+host all give the host |
| MinioAdmin.HttpsNotHttp | minio_admin.go:64-65 | an `https://` URL loses exactly its 8-character scheme |
| MinioAdmin.AdminClientInsecure | minio_admin.go:64-70 | the admin client is opened without TLS, even for an `https://` admin URL |
| MinioAdmin.Suffix | minio_admin.go:84-87 | the suffix is the whole id up to 8 characters, else its first 8 |
| MinioAdmin.NamesShared | minio_admin.go:84-99 | two ids get the same access key, bucket and policy name exactly when their suffixes agree |
| MinioAdmin.LongIdsCollide | minio_admin.go:84-90 | `platform-alice` and `platform-bob` get the same bucket and access key |
| MinioAdmin.BucketPolicy | minio_admin.go:99-122 | the policy names only the user's bucket and its objects |
| MinioAdmin.Picked | minio_admin.go:193-200 | the random string has the requested length and draws from the 62-character charset |
| MinioAdmin.GenerateRandomString | minio_admin.go:193-200 | the fill loop returns exactly `Picked` |
| MinioAdmin.Hex | minio_admin.go:202-204 | an id is a non-empty run of lower-case hex digits |
| MinioAdmin.HexValueOfHex | minio_admin.go:202-204 | an id reads back as its number |
| MinioAdmin.IdsDistinct | minio_admin.go:202-204 | distinct `rand.Int63` draws give distinct ids |
| MinioAdmin.Script | minio_admin.go:66-162 | provisioning issues eight backend calls besides the `BucketExists` probes (see Left out) |
| MinioAdmin.ScriptPhases | minio_admin.go:66-162 | the calls are the admin connection, then the grant, then the bucket phase |
| MinioAdmin.ProvisionedMatchesScript | minio_admin.go:173-187 | the returned configuration has the created user's keys, the created bucket and region, and the user client's endpoint and SSL flag; it is of type `minio`, the default, and owned by the user |
| MinioAdmin.FirstFault | minio_admin.go:67-162 | provisioning stops exactly when one of the four fatal calls fails, and then after that call |
| MinioAdmin.CreateMinIOUserAndBucket | minio_admin.go:55-190 | with a fatal failure: that error, after the calls up to it; otherwise the provisioned configuration with a 32-character secret, after all eight calls |
| MinioAdmin.Provision | minio_admin.go:66-187 | the same for a given secret and id |
| MinioAdmin.ConnectAdmin | minio_admin.go:66-79 | the admin client and server info calls, stopping at the first failure |
| MinioAdmin.Grant | minio_admin.go:88-128 | user, policy and attachment, whose failures are only logged |
| MinioAdmin.ProvisionBucket | minio_admin.go:131-162 | the bucket phase, stopping at a failure to open either client |

## Left out

- Storage and the backend calls. Badger transactions, JSON encoding and storage write errors (the 500 answers) are not modelled. The store is a sorted key list plus a map, and each backend call's result is an input.
- The session-building half of `createS3Client` (s3.go:51-75) is not modelled. Whether the session could be built is an input. A failed session gives the nil client only for a `minio` configuration. For any other type, `session.Must` (s3.go:65) panics and the router's recovery middleware answers 500 with an empty body. `Registry.ProbeFailure` and `Transfer.ClientFailure` give those two answers.
- Concurrency and atomicity. The default flip writes each record in its own transaction (s3.go:216, 224); it is modelled as sequential.
- `DownloadFile`, `DeleteFile` and the response streaming are not modelled. Their key namespacing is the same `ObjectKey`.
- `ExportConfigsHandler` is not modelled, because it reads `config:` keys (s3.go:619-622). The import writes under `config:` keys too (s3.go:727-731), so only the row mapping and its round trip are modelled. The store writes are not.
- `SetDefaultConfig` (the HTTP handler, s3.go:187-197) is not modelled. It only wraps `setDefaultConfig`, which is modelled.
- Transfer.PartLoop: the loop is modelled as running over the reads it is given. A stream longer than the script ends as a clean end of stream.
- Audit.AuditTrail.GetAuditLogs: `sort.Slice` is not stable. The contract states only the records, as a multiset, and the newest-first order. The order among equal timestamps is not stated.
- Audit.AuditTrail.LogEvent: the `Details` map is not modelled. Two events in the same nanosecond overwrite each other, as the key shows.
- The `auditService == nil` checks in the handlers are not modelled, because the handlers always have a trail.
- JSON body decoding errors are not modelled: they are carried as an `Err` body.
- RFC 3339 parsing and formatting are not modelled. Times are integers, and a malformed time is a separate case.
- `ExportAuditLogsHandler` (audit/handlers.go:26-67) is not modelled; it only writes records out.
- Auth: these parts of auth.go are not modelled. None of them changes the user registry.
  - `Logout`, `GetAllUsers`, `ListUsersHandler`, `ExportUsersHandler`, `GetUsers` and `GetUserConfig`
  - the event logging through the middleware package
- bcrypt and JWT are not modelled: the password check, the hash and the token come in as inputs.
- Auth.UserStore.Register: the explicit "username and password required" check (auth.go:206-209) is unreachable, because binding already refuses such requests.
- Auth.UserStore.Register: `CreatedAt` and `UpdatedAt` get one instant. The source reads the clock once for each (auth.go:237-238), so they can differ by the time between the reads.
- Auth.UserStore.CreateUser: `CreatedAt` and `UpdatedAt` get one instant. The source reads the clock once for each (auth.go:473-474).
- Auth.UserStore.Login: both clock readings are taken as one instant.
- Registry.SetDefault: every save stamps `UpdatedAt` with the handler's single instant `now`. `saveConfig` reads the clock on each save (s3.go:129), and `setDefaultConfig` saves each cleared record and then the target separately (s3.go:216, 224), so the source's stamps can differ by the time between saves. The same holds for Registry.ClearDefaults, Registry.DeleteConfigEffect (whose promotion re-runs `setDefaultConfig`) and Registry.UpdateConfigAsWrittenEffect (which saves and then promotes).
- MinioAdmin.Provisioned: `createdAt` and `updatedAt` get one instant. The source calls `getCurrentTime()` once for each (minio_admin.go:185-186).
- Registry.Redact: strings are sequences of characters, and the mask keeps the first 4 characters. s3.go:752 keeps the first 4 *bytes*. For an access key with a non-ASCII character among its first bytes, the source keeps fewer characters and can split a multi-byte character. The two agree on ASCII keys.
- MinioAdmin.CreateMinIOUserAndBucket:
  - The `BucketExists` probes and the log lines are not modelled. The non-fatal failures they report do not change the result.
  - `userID[:8]` slices bytes. The model slices characters, which agree for ASCII ids.
- Command-line parsing beyond the `-config` value is not modelled; that value comes in as an input.
- `logger.Initialize` is not modelled; its error comes in as an input.

## Findings

| source | as written | input that shows it | evidently intended | confidence | as-written member | corrected member |
|---|---|---|---|---|---|---|
| s3.go:870-906 | after saving the update, `UpdateConfig` runs a copy of the delete handler on the same id | update one of a user's two configurations: it answers "Configuration deleted successfully" and the configuration is gone; for the user's only configuration it answers 400 "Cannot delete the last configuration" after saving | answer 200 "Configuration updated successfully" with the record rewritten in place | high, not executed | RegistryLaws.UpdateAsWrittenDeletesTarget | RegistryLaws.UpdateRewritesInPlace |
| s3.go:533-541 | `(page - 1) * pageSize` in 64-bit `int` overflows for large pages | `?page=2305843009213693953&page_size=4` makes the slice bounds negative and the handler panics; `page=4611686018427387905` wraps to the first page | an out-of-range page yields an empty slice | high, not executed | Transfer.PageOverflowPanics | Transfer.PagesTile |
| audit/handlers.go:125 | `offset := (page - 1) * limit` in 64-bit `int` overflows | `?page=2305843009213693953&limit=4` gives offset -2^63, so the first page comes back | a page past the end is empty and pages follow one another | high, not executed | AuditHandlers.OffsetWrapsNegative | AuditHandlers.PagesFollow |
| s3.go:85 | the listing prefix `user_config_{user}_` of user `a` also matches every key of user `a_b` | user `a_b` saves configuration `1`: user `a` lists it, and `GetConfigByID` answers 403 on `b_1`; user `a` setting any default then clears `a_b`'s only default | a user lists only their own configurations | medium, not executed | RegistryLaws.ListingCrossesUsers, RegistryLaws.SetDefaultCrossesUsers | RegistryLaws.OwnedConfigsExact |
