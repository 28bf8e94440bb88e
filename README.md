# Rental tracker: lease reminders, modelled in Dafny

This project models the lease-expiration reminder core of the rental tracker. That core
has a daily sweep that mails every landlord (realtor on copy) whose lease ends in 90, 60
or 30 days. It records each reminder in the `lease_reminders` ledger, so while the ledger's
lookups and inserts work no reminder is sent twice. A failed lookup reads as "not sent",
and a failed insert leaves no record, so either can let a pair be mailed again. The HTTP handlers show and trigger reminders, and the other backend pieces
are modelled too: the email handlers, the lease service, the Lease model, tenant
isolation, the migration script and the database pool. On the frontend, the model covers
the Pinia stores (auth, app, leases, properties, contacts, reminders) and the router guard.

Everything is modelled on values. In the reminder core dates are day numbers. The Lease
model and the lease store compare `Date` values, so there the dates and the clock are
millisecond timestamps. "today" and "now" are parameters throughout. The database tables, the SMTP transport and the stores' Supabase and API
clients are values or small classes whose faults are fixed when they are built. A query
that "fails" is one whose key lies in a fault set. State the source mutates is a `class`:
- the reminder ledger;
- the mail transport;
- the migration endpoint;
- the `pg` pool;
- the lease table;
- the email log;
- each Pinia store.

Each such class has methods that are proved against a function of the old state. The
properties the code promises are then proved as lemmas about those functions. For
example:
- when the ledger's lookups and inserts work and every mail is delivered, the sweep never
  sends a reminder twice;
- the ledger keeps its UNIQUE and CHECK constraints;
- the second sweep of a day sends nothing;
- once it has a client, the transaction helper always ends in COMMIT or ROLLBACK;
- when no one is logged in, the router guard sends every guarded route to login.

Files, one per source file or concern:
- `common.dfy`: sequences, filters, grouping, integer parsing, split/join;
- `records.dfy`: the joined lease record and JSON values;
- `ledger.dfy`: the `lease_reminders` table;
- `migration.dfy`: `run-migration.js`;
- `email_service.dfy`;
- `reminder_service.dfy`;
- `reminder_controller.dfy`;
- `reminder_job.dfy`;
- `email_controller.dfy`;
- `lease_service.dfy`;
- `lease_model.dfy`;
- `tenant_isolation.dfy`;
- `database.dfy`;
- `list_store.dfy`: the action code shared by the lease, property and contact stores;
- `lease_store.dfy`, `property_store.dfy`, `contact_store.dfy`;
- `reminder_store.dfy`;
- `app_store.dfy`;
- `auth_store.dfy`;
- `router.dfy`.

Three behaviours of the code worth knowing:
- A ledger insert that fails after the mails went out is rethrown by the service, so
  the pair is reported `error`, and the manual trigger throws.
- A failing date scan aborts the whole sweep, not just its horizon.
- The email controller's ledger helper swallows every insert error, 23505 included.

## Model

| member | source | states |
|---|---|---|
| ReminderService.ExpiringOnCorrect | backend/src/services/leaseReminderService.js:68-124 | the exact-date scan fails iff its date faults; otherwise it returns precisely the active or pending leases ending on that date |
| ReminderService.ExpiringInRangeCorrect | backend/src/services/leaseReminderService.js:182-235 | the range scan fails iff the range query faults; otherwise it returns the active or pending leases ending in [start, end], each as often as in the table, ordered by end date |
| ReminderService.FetchLease | backend/src/services/leaseReminderService.js:256-308 | a fetched lease is a table row with the requested id |
| ReminderService.FetchLeaseCorrect | backend/src/services/leaseReminderService.js:256-308 | with unique ids the manual fetch finds the row whatever its status, and reports "not found" when no row has the id |
| ReminderService.ProcessPairCases | backend/src/services/leaseReminderService.js:22-56 | a pair is reported already sent iff the lookup found it (then nothing changes); it is reported sent iff not found, the lease has landlord and realtor emails, both mails went out and the ledger accepted the row (then the ledger gained exactly that row and the transport exactly the two mails); a failure never adds a row |
| ReminderService.ProcessPairWellBehaved | backend/src/services/leaseReminderService.js:22-56 | the per-lease step reports its own pair and only ever appends the row of a reported send |
| ReminderService.VisitWithWellBehaved | backend/src/services/leaseReminderService.js:22-56 | the service's step keeps those promises for every fault setting |
| ReminderService.RunPairsStep | backend/src/services/leaseReminderService.js:22-57 | the inner loop over one more lease is the loop so far plus that lease's step |
| ReminderService.SweepStep | backend/src/services/leaseReminderService.js:16-58 | the sweep over one more horizon is the sweep so far plus that horizon's scan and inner loop |
| ReminderService.RunPairsFacts | backend/src/services/leaseReminderService.js:22-57 | the inner loop reports one outcome per scanned lease in scan order, and the ledger grows by exactly the rows of the reported sends |
| ReminderService.SweepGrows | backend/src/services/leaseReminderService.js:9-66 | an aborted or completed sweep only extends the ledger and the mail log |
| ReminderService.SweepCompletes | backend/src/services/leaseReminderService.js:16-20 | the sweep completes iff every horizon's scan succeeds; an aborted sweep reports a swept date whose scan faulted |
| ReminderService.SweepPairs | backend/src/services/leaseReminderService.js:16-61 | a completed sweep reports one outcome per (lease, horizon) pair, horizon by horizon (90, 60, 30) and leases in scan order |
| ReminderService.SweepRows | backend/src/services/leaseReminderService.js:27-36 | after a completed sweep the ledger is the old one plus one row per reported send, in report order |
| ReminderService.LeasePairsMembers | backend/src/services/leaseReminderService.js:22 | the pairs of one scan are exactly (id, days) for the ids of the scanned leases |
| ReminderService.ScanHasId | backend/src/services/leaseReminderService.js:112-113 | an id occurs in a date scan iff an eligible lease with that id ends on the date |
| ReminderService.ExpectedPairsMembers | backend/src/services/leaseReminderService.js:16-22 | a pair is visited iff its horizon is swept and an eligible lease with that id ends at today + horizon |
| ReminderService.HealthyVisitRecords | backend/src/services/leaseReminderService.js:25-29 | with no ledger or mail fault the step leaves every remindable lease recorded for a ledger horizon |
| ReminderService.LookupVisitSkips | backend/src/services/leaseReminderService.js:25-44 | when lookups work, a recorded pair is reported already sent and nothing changes |
| ReminderService.RunPairsCovers | backend/src/services/leaseReminderService.js:22-57 | after such a loop every scanned lease has its ledger row for the horizon |
| ReminderService.SweepCovers | backend/src/services/leaseReminderService.js:9-66 | with healthy scans and step, the sweep completes and leaves every visited pair recorded |
| ReminderService.RunPairsHeld | backend/src/services/leaseReminderService.js:37-45 | an inner loop over recorded pairs changes nothing and reports each as already sent |
| ReminderService.SweepHeld | backend/src/services/leaseReminderService.js:9-66 | a sweep whose visited pairs are all recorded changes nothing and reports every pair already sent |
| ReminderService.SecondSweepSendsNothing | backend/src/services/leaseReminderService.js:24-45 | two sweeps on the same day and data with nothing failing: the second visits the same pairs, reports all already sent and changes neither the ledger nor the mail log |
| ReminderService.ManualBypassesLedger | backend/src/services/leaseReminderService.js:256-321 | the manual trigger mails a remindable lease even when that reminder is already recorded, and then fails on the unique constraint; an unrecorded one is recorded and answered with the success message |
| ReminderService.ManualSuccess | backend/src/services/leaseReminderService.js:306-316 | a manual trigger succeeds only when the lease was found and remindable, both mails went out and its row was newly inserted |
| ReminderService.LeaseReminderService.constructor | backend/src/services/leaseReminderService.js:5-7 | the horizons are [90, 60, 30] |
| ReminderService.LeaseReminderService.CheckReminderSent | backend/src/services/leaseReminderService.js:143-161 | "sent" is the lookup's answer, and any lookup error reads as not sent |
| ReminderService.LeaseReminderService.SendReminderForLease | backend/src/services/leaseReminderService.js:126-141 | a missing landlord or realtor, or a missing email, throws before anything is sent; otherwise the mails are those of the sender |
| ReminderService.LeaseReminderService.RecordReminderSent | backend/src/services/leaseReminderService.js:163-180 | the insert's result and the new ledger are those of the constrained table, which stays valid |
| ReminderService.LeaseReminderService.ProcessLease | backend/src/services/leaseReminderService.js:22-56 | the new state and outcome are the per-lease step of the old state |
| ReminderService.LeaseReminderService.ProcessScan | backend/src/services/leaseReminderService.js:22-57 | the loop's new state and outcomes are the inner-loop function of the old state |
| ReminderService.LeaseReminderService.CheckAndSendReminders | backend/src/services/leaseReminderService.js:9-66 | the new state and result are the sweep over the horizons from the old state |
| ReminderService.LeaseReminderService.GetReminderHistory | backend/src/services/leaseReminderService.js:237-254 | fails iff the history query faults; otherwise the lease's rows, newest first |
| ReminderService.LeaseReminderService.ManuallyTriggerReminder | backend/src/services/leaseReminderService.js:256-321 | the new state and result are those of the manual-trigger function |
| Ledger.LookupSpec | backend/src/services/leaseReminderService.js:143-161 | found implies a row for the key exists; not found implies none does |
| Ledger.InsertSpec | backend/run-migration.js:11-20 | an insert succeeds iff the key is not faulty, the horizon is 90, 60 or 30 and no row has the key; it then appends the row, otherwise nothing changes; a duplicate means the key was already there |
| Ledger.InsertKeepsConstraints | backend/run-migration.js:14-19 | no insert breaks the CHECK on reminder_days or UNIQUE(lease_id, reminder_days) |
| Ledger.SecondInsertRefused | backend/run-migration.js:18-19 | once a (lease, horizon) row is in, a second insert for it is refused as a duplicate and changes nothing |
| Ledger.CascadeDelete | backend/run-migration.js:13 | deleting a lease keeps exactly the rows of the other leases |
| Ledger.CascadeKeepsConstraints | backend/run-migration.js:13-19 | the cascade keeps the constraints and leaves no row of the deleted lease, for any horizon |
| Ledger.HistoryCorrect | backend/src/services/leaseReminderService.js:237-249 | the history holds exactly the lease's rows, with multiplicity, ordered by sent_at descending |
| Ledger.ReminderLedger.constructor | backend/run-migration.js:11-20 | a ledger starts constrained with the given rows and fault sets |
| Ledger.ReminderLedger.Lookup | backend/src/services/leaseReminderService.js:145-150 | the lookup result is the lookup function of the rows |
| Ledger.ReminderLedger.Insert | backend/src/services/leaseReminderService.js:165-171 | the result and new rows are those of the insert function, and the constraints still hold |
| Ledger.ReminderLedger.DeleteLease | backend/run-migration.js:13 | the new rows are the cascade of the old, and the constraints still hold |
| Ledger.ReminderLedger.History | backend/src/services/leaseReminderService.js:239-243 | a faulty lease gives no answer; otherwise the history function of the rows |
| Migration.TrimEnd | backend/run-migration.js:53 | trailing white space is dropped: the result is a prefix followed only by white space and does not end in white space |
| Migration.TrimShape | backend/run-migration.js:53 | `trim()` keeps the middle part: white space before, white space after, neither end white space |
| Migration.TrimOf | backend/run-migration.js:53 | white space around a text whose ends are not white space trims to that text |
| Migration.TrimmedWithout | backend/run-migration.js:52-53 | a trimmed chunk holds no ';' when its chunk holds none |
| Migration.Statements | backend/run-migration.js:51-54 | the splitter yields no more statements than chunks |
| Migration.StatementsShape | backend/run-migration.js:51-54 | every statement is non-empty, trimmed, free of ';' and does not start with "--" |
| Migration.StatementsOfChunks | backend/run-migration.js:51-54 | for SQL joined from ';'-free chunks, the statements are the trimmed chunks that pass the filter, in order |
| Migration.CommentLedChunkDropped | backend/run-migration.js:10-11 | a chunk whose first text is a comment line is filtered out, whatever SQL follows the comment |
| Migration.CommentLedChunkSkipped | backend/run-migration.js:51-54 | a script whose first chunk opens with a comment runs the same statements as the script without that chunk, so the CREATE TABLE is never sent |
| Migration.LineEnd | backend/run-migration.js:10-11 | the index of the first line break, or the length when there is none |
| Migration.StatementsKeepingDdl | backend/run-migration.js:51-54 | the corrected splitter yields no more statements than chunks |
| Migration.StripCommentLine | backend/run-migration.js:10-11 | the corrected splitter removes a leading comment line and keeps the SQL under it |
| Migration.KeepsDdl | backend/run-migration.js:11-20 | SQL that does not open with a comment is kept as its trimmed text |
| Migration.CommentLedChunkKept | backend/run-migration.js:10-20 | with the corrected splitter a comment-led chunk contributes the statement written under the comment |
| Migration.RunCallsExecs | backend/run-migration.js:56-73 | a failing statement does not stop the run: every statement is sent to exec_sql, in order |
| Migration.RunCallsProbes | backend/run-migration.js:61-66 | exactly the statements exec_sql refuses are followed by the fallback read |
| Migration.SqlEndpoint.constructor | backend/run-migration.js:59 | the endpoint starts with no calls and nothing applied |
| Migration.SqlEndpoint.ExecSql | backend/run-migration.js:59 | the RPC fails iff the statement is refused; the call is logged and an accepted statement applied |
| Migration.SqlEndpoint.ProbeStatements | backend/run-migration.js:63-66 | the fallback read is logged and applies nothing |
| Migration.RunStatement | backend/run-migration.js:57-72 | one loop pass: the RPC, then the fallback read iff the RPC failed |
| Migration.RunAll | backend/run-migration.js:56-73 | the calls are those of the whole statement list, and the applied statements are the accepted ones, in order |
| Migration.RunMigration | backend/run-migration.js:5-73 | the script's calls and applied statements are those of its split statements |
| Migration.RunMigrationKeepingDdl | backend/run-migration.js:51-73 | with the corrected splitter, the calls and applied statements are those of the statements with their comment lines stripped |
| EmailService.Transport.constructor | backend/src/services/emailService.js:4-16 | a transport starts with no mail delivered |
| EmailService.Transport.SendMail | backend/src/services/emailService.js:53-59 | a mail is accepted iff the server takes it, and only an accepted mail is logged |
| EmailService.Transport.Verify | backend/src/services/emailService.js:233 | verify answers whether the server is reachable |
| EmailService.DeliverPairFacts | backend/src/services/emailService.js:51-74 | two awaited sends: success means both went out in order; a refused first mail sends nothing, a refused second leaves only the first |
| EmailService.DaysText | backend/src/services/emailService.js:29 | the interpolated day count is never empty |
| EmailService.NatTextNotNaN | backend/src/services/emailService.js:29 | no day count renders as "NaN" |
| EmailService.DaysTextInjective | backend/src/services/emailService.js:29 | distinct day values render differently |
| EmailService.SubjectRoundTrip | backend/src/services/emailService.js:29 | the days text read back out of a rendered reminder subject is the one it was written with |
| EmailService.SubjectInjective | backend/src/services/emailService.js:29 | reminders for different horizons never share a subject line |
| EmailService.InternalSubjectLine | backend/src/services/emailService.js:65 | the realtor's subject is "[Internal] " followed by the landlord's subject |
| EmailService.ReminderDeliveryCases | backend/src/services/emailService.js:28-75 | success means the landlord's mail (realtor on copy) then the realtor's went out; a refused first mail sends nothing, a refused second sends only the first |
| EmailService.SendLeaseExpirationReminder | backend/src/services/emailService.js:28-75 | the result and new mail log are the delivery function of the old log |
| EmailService.AddressParts | backend/src/services/emailService.js:223-227 | only non-empty address parts are kept |
| EmailService.JoinLength | backend/src/services/emailService.js:228 | the joined parts are as long as the parts plus one separator between each two |
| EmailService.FormatPropertyAddressFacts | backend/src/services/emailService.js:221-229 | never empty; no property gives "Unknown Property", a property with no part gives "Unknown Address", otherwise the join starts with the first present part |
| EmailService.FullAddress | backend/src/services/emailService.js:221-229 | a filled-in property formats as "street, city, state, zip" |
| EmailService.TestConnection | backend/src/services/emailService.js:231-240 | resolves true iff the server is reachable, throws otherwise |
| Database.HostPart | backend/src/config/database.js:67-69 | the host is a prefix of what follows the scheme |
| Database.HttpsHostname | backend/src/config/database.js:67-69 | `https://` followed by a plain host name parses to that host name |
| Database.ExtractHostFallback | backend/src/config/database.js:65-77 | a missing or empty URL, or one that does not parse, gives "localhost" |
| Database.ExtractSupabase | backend/src/config/database.js:70-72 | a host containing ".supabase.co" gives "db." + its first dot-separated label + ".supabase.co" |
| Database.ProjectHost | backend/src/config/database.js:68-72 | `https://<project>.supabase.co` maps to `db.<project>.supabase.co` |
| Database.OtherHost | backend/src/config/database.js:69-74 | any other parsed host is returned unchanged |
| Database.RunBodyOk | backend/src/config/database.js:157 | the callback succeeds iff none of its statements fails, and then it sent every statement and has one answer per statement |
| Database.RunBodyErr | backend/src/config/database.js:157 | a failing callback stops at a failing statement, having sent exactly the statements up to it |
| Database.TransactionFacts | backend/src/config/database.js:148-166 | BEGIN comes first; the transaction succeeds iff BEGIN, every statement and COMMIT succeed, and then sends BEGIN, the body and COMMIT; every failure is the sent prefix up to the failure followed by ROLLBACK |
| Database.FirstRow | backend/src/config/database.js:144 | null iff there are no rows, otherwise the first row |
| Database.PgDatabase.constructor | backend/src/config/database.js:82-103 | the pool survives iff the test connection succeeds; the checkout fault is the given one; nothing sent, no client checked out |
| Database.PgDatabase.IsDirectConnectionAvailable | backend/src/config/database.js:183-185 | true iff a pool exists |
| Database.PgDatabase.ClientQuery | backend/src/config/database.js:117 | the statement is sent; it throws iff it fails, and otherwise answers its rows |
| Database.PgDatabase.Connect | backend/src/config/database.js:114 | the checkout succeeds iff the pool can hand out a client, and then exactly one more client is checked out; nothing is sent either way |
| Database.PgDatabase.Release | backend/src/config/database.js:131 | one more client released, nothing sent |
| Database.PgDatabase.Query | backend/src/config/database.js:108-133 | without a pool it throws before anything happens; a failed checkout throws with nothing sent and nothing released; otherwise the statement is sent and the client checked out and released exactly once, whether the query fails or not |
| Database.PgDatabase.QueryRows | backend/src/config/database.js:136-139 | the rows of the query, or its error, including the no-pool and checkout failures |
| Database.PgDatabase.QueryOne | backend/src/config/database.js:142-145 | the first row of the query or null, or its error, including the no-pool and checkout failures |
| Database.PgDatabase.RunCallback | backend/src/config/database.js:157 | the statements sent and the result are those of the callback function |
| Database.PgDatabase.Transaction | backend/src/config/database.js:148-166 | without a pool it throws; a failed checkout throws with no BEGIN, no ROLLBACK and no release; otherwise the statements sent and the result are the transaction function's, with one client checked out and released |
| TenantIsolation.TenantContext | backend/src/middleware/tenantIsolation.js:12-32 | a tenant context is set iff the path is not public and a user with a non-empty id is known; its id and userId are both the user's id |
| TenantIsolation.PublicByPrefix | backend/src/middleware/tenantIsolation.js:15-16 | public routes match by prefix: any path extending `/api/auth/me` or `/api/auth/login` gets no context |
| TenantIsolation.Capitalize | backend/src/middleware/tenantIsolation.js:91 | capitalising keeps the length and every letter after the first |
| TenantIsolation.OwnershipCases | backend/src/middleware/tenantIsolation.js:46-95 | no id: next, unchecked; unknown type: 400; known type: next iff the caller owns the row, else 404 with the capitalised type name |
| TenantIsolation.OwnershipMapping | backend/src/middleware/tenantIsolation.js:56-72 | contact, property and lease are checked on realtor_id of their tables, user on users.id |
| TenantIsolation.DeniedMessages | backend/src/middleware/tenantIsolation.js:59-91 | each of the four resource types contact, property, lease and user answers its 404 with its own name capitalised, followed by " not found or access denied" |
| TenantIsolation.CapitalizeLower | backend/src/middleware/tenantIsolation.js:91 | a word whose first letter is lower case capitalises to the word with that letter upper-cased and the rest unchanged |
| TenantIsolation.RelationsGateCorrect | backend/src/middleware/tenantIsolation.js:154-175 | the request passes iff every pushed check is valid; otherwise the details are exactly the invalid checks |
| TenantIsolation.ChecksCover | backend/src/middleware/tenantIsolation.js:116-152 | one check per relationship whose body field is truthy and whose type is contact, property or lease, each about that field |
| TenantIsolation.TextIdReference | backend/src/middleware/tenantIsolation.js:117-159 | a single reference given as a non-empty text (UUID) id yields one check carrying that id, and passes iff the caller owns that row of the referenced table |
| TenantIsolation.ValidateRelationships | backend/src/middleware/tenantIsolation.js:110-184 | the loop's answer is the gate of the checks of all relationships; each check filters on the field's id text (string ids as given), so the request proceeds iff every referenced row is the caller's |
| TenantIsolation.TenantQuery | backend/src/middleware/tenantIsolation.js:190-201 | exactly the table's rows owned by the user, on id for users and realtor_id otherwise |
| TenantIsolation.GetTenantStats | backend/src/middleware/tenantIsolation.js:206-272 | any failed count gives all zeros; otherwise each statistic is its count, a missing count reading as 0 |
| LeaseModel.CurrentStatus | backend/src/models/Lease.js:115-120 | on millisecond timestamps, the virtual status is pending before the start instant, expired after the end instant, active in between, never terminated |
| LeaseModel.PreSaveCases | backend/src/models/Lease.js:123-133 | on millisecond timestamps: before the start the hook sets pending whatever the status; after the end instant every status but terminated becomes expired; inside the period only pending changes, to active |
| LeaseModel.PreSaveIdempotent | backend/src/models/Lease.js:123-133 | saving twice at one instant gives the status of saving once |
| LeaseModel.PendingFollowsDates | backend/src/models/Lease.js:42-133 | a pending document (the default) is saved with the status the virtual reports |
| LeaseModel.TerminatedStays | backend/src/models/Lease.js:127-131 | from the start date on a terminated lease stays terminated |
| LeaseModel.ExpiredOnEndDay | backend/src/models/Lease.js:115-131 | for an end date held at 00:00 UTC, any later instant of that day already reads as expired and every status but terminated is saved as expired |
| LeaseModel.SchemaErrors | backend/src/models/Lease.js:27-62 | no validation error iff rent and deposit are non-negative and the additional terms are at most 2000 characters |
| LeaseModel.LeaseDocument.constructor | backend/src/models/Lease.js:32-62 | a new document has status pending, deposit 0, no renewal or auto-renewal, 30 days notice |
| LeaseModel.LeaseDocument.Save | backend/src/models/Lease.js:123-133 | a document failing validation is rejected unchanged; otherwise only its status changes, to the hook's status for the instant now |
| LeaseService.FirstPrimaryFacts | backend/src/services/leaseService.js:71-72 | `find(is_primary)` finds nothing iff no party is flagged, and otherwise the earliest flagged party |
| LeaseService.Primary | backend/src/services/leaseService.js:71-72 | the lease's single party is null iff it has no parties |
| LeaseService.PrimaryChoice | backend/src/services/leaseService.js:129-130 | the primary is the first flagged party when one is flagged, and otherwise the first party |
| LeaseService.FindByIdRelations | backend/src/services/leaseService.js:106-130 | a failed relation fetch gives an empty list and a null primary instead of failing the read; a successful one gives the rows and their primary |
| LeaseService.FindAllRelations | backend/src/services/leaseService.js:57-83 | a throwing relation read leaves empty lists and null primaries; otherwise the same relations as findById |
| LeaseService.NormaliseCases | backend/src/services/leaseService.js:167-169 | an array is used as given; otherwise at most one party, flagged primary, from the single field before the id field, and none iff both are absent |
| LeaseService.TenantLinks | backend/src/services/leaseService.js:171-177 | one join row per tenant |
| LeaseService.LandlordLinks | backend/src/services/leaseService.js:195-201 | one join row per landlord |
| LeaseService.TenantLinksFacts | backend/src/services/leaseService.js:171-177 | each tenant row belongs to the lease and its tenant; primary is the given flag, by default only the first; a zero or absent share defaults to the monthly rent for the first and to null for the others |
| LeaseService.LandlordLinksFacts | backend/src/services/leaseService.js:195-201 | the same for landlords, with the first defaulting to 100% ownership |
| LeaseService.UnflaggedFirstIsPrimary | backend/src/services/leaseService.js:171-177 | read back, rows written from unflagged tenants make the first tenant the primary one |
| LeaseService.CreateDefaults | backend/src/services/leaseService.js:137-158 | the new row belongs to the realtor; status defaults to pending, deposit to 0, notice to 30 (also for 0), renewal and auto-renewal to false; a given status is kept |
| LeaseService.LeaseDropped | backend/src/services/leaseService.js:183-186 | with a fresh id, the compensating delete removes exactly the inserted lease row |
| LeaseService.TenantLinksDropped | backend/src/services/leaseService.js:207-210 | with a fresh id, deleting the lease's tenant rows removes exactly the rows just inserted |
| LeaseService.CreateRollsBack | backend/src/services/leaseService.js:135-212 | with a fresh id and working compensating deletes, every failed create leaves the lease, tenant-link and landlord-link tables as they were |
| LeaseService.CreateAdds | backend/src/services/leaseService.js:135-212 | a successful create adds the new row to the leases and exactly its tenant and landlord join rows |
| LeaseService.CreateLeavesOrphans | backend/src/services/leaseService.js:183-211 | when the lease delete of a rollback fails the new lease row stays behind, and when the tenant delete fails after a landlord fault the new tenant rows stay, while the insert error is still the result |
| LeaseService.LeaseDatabase.constructor | backend/src/services/leaseService.js:135-212 | the tables start empty with the given insert faults |
| LeaseService.LeaseDatabase.InsertLease | backend/src/services/leaseService.js:137-164 | the insert succeeds iff the leases table is up, and then appends the row; otherwise nothing changes |
| LeaseService.LeaseDatabase.InsertTenantLinks | backend/src/services/leaseService.js:179-181 | the insert succeeds iff lease_tenants is up, and then appends the rows |
| LeaseService.LeaseDatabase.InsertLandlordLinks | backend/src/services/leaseService.js:203-205 | the insert succeeds iff lease_landlords is up, and then appends the rows |
| LeaseService.LeaseDatabase.DeleteLease | backend/src/services/leaseService.js:185 | a working delete leaves only the rows of other leases in the leases table; a failing one changes nothing, and reports it to a caller that never looks |
| LeaseService.LeaseDatabase.DeleteTenantLinks | backend/src/services/leaseService.js:209 | a working delete leaves only the rows of other leases in lease_tenants; a failing one changes nothing |
| LeaseService.LeaseDatabase.Create | backend/src/services/leaseService.js:135-212 | the new tables and the result are those of the create function, whose rollback deletes can fail unnoticed |
| LeaseService.CopyField | backend/src/services/leaseService.js:222-237 | one guarded copy extends the record by the field exactly when it is supplied |
| LeaseService.EveryColumn | backend/src/services/leaseService.js:222-237 | the sixteen guarded fields are all the fields update looks at |
| LeaseService.UpdateData | backend/src/services/leaseService.js:220-237 | a field is in the update record iff it is supplied (truthy for ids, dates, type and status; defined for the others), and then with its given value |
| LeaseService.FalsyFieldsInUpdate | backend/src/services/leaseService.js:222-237 | a falsy but defined value (null, false, 0, "") is never copied into an id, date, type or status column, and always copied into every other column |
| LeaseService.StatusCountsFacts | backend/src/services/leaseService.js:380-384 | the status counters have distinct keys, sum to the number of rows, and count each status's rows |
| LeaseService.GetStats | backend/src/services/leaseService.js:353-386 | the statistics fail exactly when the status select or the monthly-rent select answers with an error; otherwise totalLeases is the row count and monthlyRevenue the rent sum |
| LeaseService.RentSumAppend | backend/src/services/leaseService.js:375 | the revenue of two lists of rents is the sum of their revenues |
| LeaseService.NullRentAddsNothing | backend/src/services/leaseService.js:375 | a null monthly_rent adds nothing to the revenue |
| LeaseService.StatsAddUp | backend/src/services/leaseService.js:353-386 | totalLeases is the row count, activeLeases the 'active' count, and the status counters add up to totalLeases |
| EmailController.EmailLog.constructor | backend/src/controllers/emailController.js:43-64 | the email log starts empty, with its insert fault fixed |
| EmailController.EmailLog.Insert | backend/src/controllers/emailController.js:45-60 | the new rows are those of the logging function |
| EmailController.LogSpec | backend/src/controllers/emailController.js:43-64 | logging never fails its caller: the log keeps its old rows and gains the row iff its inserts work |
| EmailController.RecordSpecFacts | backend/src/controllers/emailController.js:67-83 | the controller's record helper never fails its caller: a duplicate, a NaN horizon or a store fault leave the ledger as it was, otherwise the row is added; the ledger keeps its constraints |
| EmailController.TitleOr | backend/src/controllers/emailController.js:149 | the property title when it is non-empty, else "Property"; never empty |
| EmailController.CustomLeaseMails | backend/src/controllers/emailController.js:138-160 | two mails: to the landlord with the realtor on copy and subject "Regarding Your Lease - " + title, then to the realtor alone with "[Internal] Lease Communication - " + title |
| EmailController.BatchSent | backend/src/controllers/emailController.js:179-219 | the sent list names the mailed items, in item order |
| EmailController.BatchFailed | backend/src/controllers/emailController.js:179-219 | the failed list names the items that were not mailed, in item order |
| EmailController.BatchMails | backend/src/controllers/emailController.js:179-219 | the mail log grows by exactly the accepted mails, in item order |
| EmailController.BatchLogged | backend/src/controllers/emailController.js:201-204 | the email log gains one row per mailed item, unless its inserts fail |
| EmailController.BatchFacts | backend/src/controllers/emailController.js:179-219 | every item lands in exactly one of sent and failed; only mailed items reach the mail log and the email log |
| EmailController.DeliveriesFrom | backend/src/controllers/emailController.js:179-219 | a delivered mail is the planned mail of some item and one the server accepts |
| EmailController.BatchCounts | backend/src/controllers/emailController.js:179-229 | each item adds one name to sent or failed, and each sent item exactly one mail |
| EmailController.FailedItem | backend/src/controllers/emailController.js:183-188 | an item that is not mailed is reported failed |
| EmailController.DeliveredItems | backend/src/controllers/emailController.js:179-219 | every mail a batch adds is the planned mail of one of its items |
| EmailController.SendEmailsCounts | backend/src/controllers/emailController.js:176-231 | success_count + error_count = total = emails.length, one mail per sent item, and an item missing to, subject or message is failed |
| EmailController.SendEmailsMails | backend/src/controllers/emailController.js:181-201 | every mail sendEmails sends is the custom mail of a complete item |
| EmailController.DeliveriesCount | backend/src/controllers/emailController.js:179-219 | as many mails are delivered as items are mailed |
| EmailController.FetchContacts | backend/src/controllers/emailController.js:256-266 | a query error is reported; otherwise exactly the caller's active contacts whose id was asked for |
| EmailController.ContactMailFill | backend/src/controllers/emailController.js:281-289 | when the name holds no `$` pattern, every {contact_name} in the sent body becomes "first last"; the logged message is the template as written |
| EmailController.ContactNameDollar | backend/src/controllers/emailController.js:284 | a contact named "A$&" gets "A{contact_name} " for the message "{contact_name}": `$&` puts the match back |
| EmailController.ContactsWithoutEmail | backend/src/controllers/emailController.js:268-304 | each contact is sent or failed; a contact without an email is failed and never mailed; with no message nothing is mailed |
| EmailController.ParsedDaysOfTypes | backend/src/controllers/emailController.js:405 | parseInt gives 30, 60 and 90 for those types and NaN for 'custom' |
| EmailController.OwnedLease | backend/src/controllers/emailController.js:342-391 | a found lease is a row with the requested id owned by the caller |
| EmailController.OwnedLeaseCases | backend/src/controllers/emailController.js:342-391 | the fetch answers the row when exactly one row has the id and the caller as realtor, and nothing when the query fails or when no row or several rows match |
| EmailController.LeaseReminderSpec | backend/src/controllers/emailController.js:327-415 | an invalid type answers 400 before any lookup; no owned row answers 404; an owned lease without the landlord's or realtor's address answers 400; these change nothing; an owned, addressed lease goes to the branch |
| EmailController.ReminderBranch | backend/src/controllers/emailController.js:400-415 | once addresses are present the handler answers sent or failed and never writes the email log |
| EmailController.BranchMails | backend/src/controllers/emailController.js:400-415 | 'custom' with a message sends the custom pair, other types the standard pair for parseInt(type) days; success iff both mails are accepted (and, for the standard pair, the lease has a tenant); a failure on the second mail leaves the first delivered |
| EmailController.LeaseReminderMails | backend/src/controllers/emailController.js:327-415 | a '30', '60' or '90' request for an owned, addressed lease mails the reminder for that many days to the landlord and then the realtor, and succeeds iff the lease has a tenant and both mails are accepted |
| EmailController.BranchRecords | backend/src/controllers/emailController.js:400-415 | 'custom' never records; a sent standard reminder for a parsed horizon leaves its row iff it was there or its insert was possible |
| EmailController.LeaseReminderRecords | backend/src/controllers/emailController.js:327-436 | the ledger keeps its constraints, the email log is untouched, and a 'custom' request records nothing |
| EmailController.LeaseReminderHorizon | backend/src/controllers/emailController.js:400-415 | a sent '30', '60' or '90' reminder leaves the (lease, horizon) row in the ledger unless its insert faults |
| EmailController.CustomWithoutMessage | backend/src/controllers/emailController.js:400-415 | 'custom' without a message sends the "NaN Days Notice" reminder pair, records nothing and can answer success |
| EmailController.Mailroom.constructor | backend/src/controllers/emailController.js:162 | the handlers use the given transport, ledger and email log |
| EmailController.Mailroom.RecordReminderSent | backend/src/controllers/emailController.js:67-83 | the ledger is the record helper's function of the old ledger, and stays valid |
| EmailController.Mailroom.LogEmailSent | backend/src/controllers/emailController.js:43-64 | the email log is the logging function of the old log |
| EmailController.Mailroom.RunItems | backend/src/controllers/emailController.js:179-219 | the loop's lists, mail log and email log are those of the batch function over the items |
| EmailController.Mailroom.SendEmails | backend/src/controllers/emailController.js:164-241 | missing or empty emails answer 400 with nothing sent; otherwise the reply, mail log and email log are those of the batch |
| EmailController.Mailroom.SendToContacts | backend/src/controllers/emailController.js:244-324 | missing or empty ids answer 400 and a failed query 500, both with nothing sent; otherwise the batch over the fetched contacts |
| EmailController.Mailroom.SendCustomLeaseEmail | backend/src/controllers/emailController.js:138-160 | the two custom mails are sent in order, the second only after the first went out |
| EmailController.Mailroom.SendLeaseReminder | backend/src/controllers/emailController.js:327-436 | the new state and reply are the handler function of the old state, and the ledger stays valid |
| ReminderController.SummaryPartition | backend/src/controllers/leaseReminderController.js:13-18 | reminders_sent + already_sent + errors = total_processed |
| ReminderController.SentRowsCount | backend/src/controllers/leaseReminderController.js:15 | there is one ledger row per `sent` outcome |
| ReminderController.SummaryMatchesLedger | backend/src/controllers/leaseReminderController.js:5-19 | after a completed run, reminders_sent is exactly the number of rows the ledger gained |
| ReminderController.RunReminderCheckReply | backend/src/controllers/leaseReminderController.js:5-27 | a service exception is a 500; otherwise the reply carries the results and total_processed is their number |
| ReminderController.WindowReplyCorrect | backend/src/controllers/leaseReminderController.js:36-58 | for a parsed day count the reply lists exactly the caller's eligible leases ending between today and today + days, ordered by end date, with total their number; a scan fault is a 500 |
| ReminderController.WindowReplyShape | backend/src/controllers/leaseReminderController.js:40-58 | the reply is built from the realtor-filtered range scan over [today, today + days] |
| ReminderController.WindowListing | backend/src/controllers/leaseReminderController.js:40-58 | the leases of that reply are the realtor's eligible leases in the window |
| ReminderController.WindowListingTo | backend/src/controllers/leaseReminderController.js:40-45 | filtering the range scan on the realtor keeps exactly that realtor's eligible leases in the range, ordered |
| ReminderController.RangeScanFacts | backend/src/controllers/leaseReminderController.js:40 | the range scan holds exactly the eligible leases in the range and is sorted by end date |
| ReminderController.ManagedWindow | backend/src/controllers/leaseReminderController.js:43-45 | the realtor filter of such a scan keeps exactly the leases whose realtor is present and is the caller |
| ReminderController.ExpiringLeasesCorrect | backend/src/controllers/leaseReminderController.js:31-67 | the window defaults to 90 days; the reply is a listing iff the day count parses and the scan works; a day count that does not parse is a 500 |
| ReminderController.HistoryReplyOf | backend/src/controllers/leaseReminderController.js:70-87 | a service failure is a 500; otherwise the history rows are the reply |
| ReminderController.ManualDays | backend/src/controllers/leaseReminderController.js:95-102 | an accepted day count is 90, 60 or 30, read by parseInt from the text of any body value, arrays included |
| ReminderController.ManualDaysNumbers | backend/src/controllers/leaseReminderController.js:95 | a number is accepted iff it is 90, 60 or 30, and passed on; a falsy value is rejected |
| ReminderController.ManualDaysText | backend/src/controllers/leaseReminderController.js:95-102 | the text of a horizon is accepted, even followed by non-digit text, since parseInt stops there |
| ReminderController.ManualDaysHex | backend/src/controllers/leaseReminderController.js:95-102 | the text "0x5A" asks for the 90-day reminder, since parseInt without a radix reads it as hexadecimal |
| ReminderController.ManualDaysArray | backend/src/controllers/leaseReminderController.js:95-102 | an array whose first element is a horizon or its text, such as [90], ["90"] or [90, 60], asks for that horizon |
| ReminderController.ManualDaysEmptyArray | backend/src/controllers/leaseReminderController.js:95-102 | an empty array is truthy but its text is empty, so it is rejected |
| ReminderController.ManualReminder | backend/src/controllers/leaseReminderController.js:90-116 | a rejected day count answers 400 without calling the service; otherwise the new state is the service's manual trigger, and its error a 500 |
| ReminderController.MonthCountsFacts | backend/src/controllers/leaseReminderController.js:149-162 | one by_month counter per month seen, each month once, each counting that month's leases |
| ReminderController.ComputeStats | backend/src/controllers/leaseReminderController.js:136-163 | total_expiring is the number of leases; the 30/60/90 counters count the leases with at most 30 days left, 31 to 60, and 61 to 90; by_month is the month counters |
| ReminderController.BandsPartition | backend/src/controllers/leaseReminderController.js:151-157 | the three bands count every lease except those more than 90 days out, each once |
| ReminderController.StatsFacts | backend/src/controllers/leaseReminderController.js:136-162 | the bands never count a lease twice, count every lease when none is more than 90 days out, and the by_month counters sum to total_expiring |
| ReminderController.GetReminderStats | backend/src/controllers/leaseReminderController.js:119-177 | the reply is ok iff the day count parses and the scan works, and then gives those counts over the caller's leases in the window |
| ReminderJob.ReportOf | backend/scripts/lease-reminder-job.js:36-65 | the summary counts the results; the "Reminders Sent" list holds exactly the `sent` outcomes and the "Errors" list exactly the `error` outcomes, as many as the summary says |
| ReminderJob.Members | backend/scripts/lease-reminder-job.js:51-62 | a status filter keeps exactly the results with that status |
| ReminderJob.JobExit | backend/scripts/lease-reminder-job.js:25-78 | an unreachable mail server exits 1 before the sweep, changing nothing; the job exits 0 iff the server is reachable, every horizon scan works and no outcome is an error; the summary adds up |
| ReminderJob.RunLeaseReminderJob | backend/scripts/lease-reminder-job.js:21-79 | the new state and the exit code are those of the job function |
| Common.ParseIntOfNat | backend/src/controllers/leaseReminderController.js:95 | parseInt reads back the decimal text of every natural number |
| Common.ParseIntPrefix | backend/src/controllers/leaseReminderController.js:95 | parseInt stops at the first non-digit, so "30 days" reads as 30 (unless the number is 0 and an "x" follows) |
| Common.ParseIntHex | backend/src/controllers/leaseReminderController.js:95 | parseInt without a radix reads a "0x" prefix as hexadecimal: "0x5A" is 90, and "0x" alone is NaN |
| Common.ParseIntOfWord | backend/src/controllers/emailController.js:405 | text starting with a letter, such as 'custom', parses to NaN |
| Common.NatToString | backend/src/services/emailService.js:29 | the decimal text of a number is non-empty and all digits |
| Common.Split | backend/run-migration.js:51 | split always gives at least one piece, none holding the separator |
| Common.SplitJoin | backend/run-migration.js:51 | joining the pieces of a split with the separator gives the text back |
| Common.JoinSplit | backend/run-migration.js:51 | splitting undoes joining when no piece holds the separator |
| Common.ReplaceJoin | backend/src/controllers/emailController.js:284 | a global replace turns every placeholder of a template into the replacement and leaves the rest alone |
| Common.ExpandLiteral | backend/src/controllers/emailController.js:284 | a replacement text with no `$$`, `$&`, `` $` `` or `$'` is inserted unchanged |
| Common.JsReplaceLiteral | backend/src/controllers/emailController.js:284 | with such a literal replacement, the JavaScript global replace is the plain left-to-right replace |
| Common.JsReplaceWhole | backend/src/controllers/emailController.js:284 | a subject that is exactly one match becomes the expanded replacement |
| Common.SortByKeySorted | backend/src/services/leaseReminderService.js:243 | ordering by a key gives a sequence sorted by that key (and, by the function's own contract, a permutation) |
| Common.FilterKeepsOrder | backend/src/controllers/leaseReminderController.js:43-45 | filtering keeps an ordered sequence ordered |
| Common.GroupByCorrect | frontend/src/stores/leaseStore.js:68-78 | grouping puts every element in the group of its key, in input order, under distinct keys, with a group exactly for the keys present |
| Common.GroupBySize | frontend/src/stores/leaseStore.js:68-78 | the groups together hold as many elements as the input |
| Common.BumpCounts | backend/src/services/leaseService.js:381-383 | counting a status adds one to k's counter and to the total, and leaves the other counters alone |
| Common.BumpKeys | backend/src/services/leaseService.js:381-383 | the counters keep distinct keys and gain k's |
| ReminderStore.BandMembership | frontend/src/stores/reminderStore.js:14-46 | each band holds exactly the leases ending in its interval (the 30-day band also holds expired ones); no lease is in two bands, and every lease ending within 90 days is in one |
| ReminderStore.ByExpirationMonthCorrect | frontend/src/stores/reminderStore.js:48-62 | leasesByExpirationMonth puts each lease in exactly the group of its month, in store order, under distinct month keys, losing none |
| ReminderStore.SentFor | frontend/src/stores/reminderStore.js:168-170 | `history.some(h => h.reminder_days === days)` holds iff some entry is for that horizon |
| ReminderStore.FirstDueFacts | frontend/src/stores/reminderStore.js:173-197 | the next reminder is a horizon within the bound that is not yet sent, and there is none iff every horizon is beyond the bound or sent |
| ReminderStore.StatusForSpec | frontend/src/stores/reminderStore.js:163-198 | the status band follows the days until expiry (30, 60, 90); sent_reminders says which horizons the history holds; the next reminder is the first of 90, 60, 30 within the band not yet sent |
| ReminderStore.NextReminderNeverSent | frontend/src/stores/reminderStore.js:173-197 | the next reminder is never a sent horizon; an urgent lease is never offered 60 or 90, a future lease nothing |
| ReminderStore.ErrorText | frontend/src/stores/reminderStore.js:75 | the server's message when it is non-empty, otherwise the fixed fallback |
| ReminderStore.Store.constructor | frontend/src/stores/reminderStore.js:5-11 | empty leases, stats and history, not loading, no error |
| ReminderStore.Store.ReminderStatusOf | frontend/src/stores/reminderStore.js:155-198 | urgent iff at most 30 days remain; sent_reminders from this lease's history |
| ReminderStore.Store.FetchExpiringLeases | frontend/src/stores/reminderStore.js:66-80 | success stores the data (or []), clears the error; failure keeps the leases and sets the error text, and rethrows; loading ends false |
| ReminderStore.Store.FetchReminderStats | frontend/src/stores/reminderStore.js:82-96 | the same for the stats, with {} as the default |
| ReminderStore.Store.FetchReminderHistory | frontend/src/stores/reminderStore.js:98-112 | success overwrites this lease's history entry and no other; failure keeps every entry |
| ReminderStore.Store.SendManualReminder | frontend/src/stores/reminderStore.js:114-131 | a successful send fetches the lease's history again; a failed send or refresh rethrows with the manual-reminder error text |
| ReminderStore.Store.RunReminderCheck | frontend/src/stores/reminderStore.js:133-153 | after a successful check both lists are fetched again; any rejection rethrows with the check's error text; the histories are untouched |
| ReminderStore.Store.ClearError | frontend/src/stores/reminderStore.js:200-202 | only the error is cleared |
| ListStore.CreateErrorText | frontend/src/stores/leaseStore.js:139-145 | for a store that shows server messages: the validation messages joined by ", " when there are any, else a non-empty server message, else the fixed text; a store that does not show them always gives the fixed text |
| ListStore.UpdateErrorText | frontend/src/stores/leaseStore.js:173-176 | a non-empty server message when the store shows server messages, and the fixed update-failure text otherwise |
| ListStore.FirstIndex | frontend/src/stores/leaseStore.js:160 | the index found holds the id and no earlier record does; no index is found only when no record holds the id |
| ListStore.ReplaceFirstFacts | frontend/src/stores/leaseStore.js:160-163 | the list keeps its length; the first record with the id becomes the new record and every other position is unchanged; a list without the id is unchanged |
| ListStore.RemoveIdFacts | frontend/src/stores/leaseStore.js:190 | a record stays exactly when it was there and its id differs; the list shrinks by the number of records with that id |
| ListStore.EntityStore.constructor | frontend/src/stores/leaseStore.js:7-21 | a new store is empty, not loading, on the initial pagination (page 1, limit 10) and with the store's default filters |
| ListStore.EntityStore.FetchList | frontend/src/stores/leaseStore.js:80-106 | a reply replaces the records (an absent list becomes empty) and the pagination; a rejection keeps both and reports the fixed fetch-failure text; loading ends false either way |
| ListStore.EntityStore.FetchOne | frontend/src/stores/leaseStore.js:108-120 | a reply becomes the current record; a rejection keeps it and reports the fixed text; the list is untouched |
| ListStore.EntityStore.Create | frontend/src/stores/leaseStore.js:122-152 | the created record is put first only while page 1 is shown; success reports the created text, a rejection keeps the list and reports the create error text |
| ListStore.EntityStore.Update | frontend/src/stores/leaseStore.js:154-182 | success replaces the first record with that id, and the current record only when its id matches; a rejection changes nothing and reports the update error text |
| ListStore.EntityStore.Delete | frontend/src/stores/leaseStore.js:184-203 | success removes every record with that id and clears the current record only when its id matches; a rejection changes nothing and reports the fixed text |
| ListStore.EntityStore.SetFilters | frontend/src/stores/leaseStore.js:205-208 | new filters override the old ones key by key and the page goes back to 1; nothing else changes |
| ListStore.EntityStore.SetPagination | frontend/src/stores/leaseStore.js:210-212 | the given pagination fields override the old ones; nothing else changes |
| ListStore.EntityStore.ClearCurrent | frontend/src/stores/leaseStore.js:214-216 | only the current record is cleared |
| ListStore.EntityStore.Reset | frontend/src/stores/leaseStore.js:218-234 | the store is back in its initial state |
| LeaseStore.WithStatusMembers | frontend/src/stores/leaseStore.js:25-43 | a lease is in a status list exactly when it is in the store with that status; two different status lists share no lease; a list's length is the number of leases with that status |
| LeaseStore.ExpiringLeasesMembers | frontend/src/stores/leaseStore.js:45-54 | a lease is expiring exactly when it is in the store, active, has an end date and that timestamp lies in [now, now + 30 days]; a lease whose end date is 00:00 of a day already begun is dropped; every expiring lease is active |
| LeaseStore.LeasesByStatusCorrect | frontend/src/stores/leaseStore.js:68-78 | the groups have distinct keys; a lease is in exactly the group of its status, or of "unknown" when it has none; each group lists its leases in store order; the groups together hold every lease once |
| LeaseStore.NewLeaseStore | frontend/src/stores/leaseStore.js:7-21 | a lease store starts empty on page 1 with empty search, status, property and tenant filters |
| PropertyStore.ActivePartition | frontend/src/stores/propertyStore.js:25-31 | a property is active exactly when its is_active flag is truthy and inactive exactly when it is falsy; the two lists together are as long as the store |
| PropertyStore.PropertiesByTypeCorrect | frontend/src/stores/propertyStore.js:33-43 | the groups have distinct keys; a property is in exactly the group of its type, or of "other" when it has none; each group keeps store order; the groups together hold every property once |
| PropertyStore.NewPropertyStore | frontend/src/stores/propertyStore.js:7-21 | a property store starts empty on page 1 with its default filters, and shows server messages on create but not on update |
| ContactStore.ActivePartition | frontend/src/stores/contactStore.js:24-30 | a contact is active exactly when its is_active flag is truthy and inactive exactly when it is falsy; the two lists together are as long as the store |
| ContactStore.NewContactStore | frontend/src/stores/contactStore.js:7-20 | a contact store starts empty on page 1 with its default filters, and shows no server message on create or update |
| AppStore.DefaultTitle | frontend/src/stores/app.js:46-58 | success, error and warning get their own titles; every other type gets "Information" |
| AppStore.RemoveAt | frontend/src/stores/app.js:38 | splicing one toast out shortens the queue by one and shifts every later toast down one place |
| AppStore.WithoutToastIncreasing | frontend/src/stores/app.js:35-40 | removing a toast keeps the toast ids increasing along the queue |
| AppStore.WithoutToastFacts | frontend/src/stores/app.js:35-40 | a toast remains exactly when it was queued and has another id; a present id removes exactly one toast; an absent id leaves the queue unchanged |
| AppStore.App.constructor | frontend/src/stores/app.js:5-8 | the app starts not loading, with no toasts, counter 0 and no timers, and keeps its invariant |
| AppStore.App.SetLoading | frontend/src/stores/app.js:10-12 | only the loading flag changes, to the given value |
| AppStore.App.ShowToast | frontend/src/stores/app.js:14-33 | the counter goes up by one and is the returned id; one toast with that id is appended, titled by the given title or the type's default; a timer is recorded only for a positive duration; ids stay increasing |
| AppStore.App.RemoveToast | frontend/src/stores/app.js:35-40 | the queue loses the toast with that id and nothing else; the invariant is kept |
| AppStore.App.ClearToasts | frontend/src/stores/app.js:42-44 | the queue is emptied and the counter is kept, so later ids never repeat |
| AppStore.App.ShowSuccess | frontend/src/stores/app.js:61-63 | appends a success toast titled "Success" unless a title is given, with the 5000 ms timer |
| AppStore.App.ShowError | frontend/src/stores/app.js:65-67 | appends an error toast titled "Error" unless a title is given, with the longer 8000 ms timer |
| AppStore.App.ShowWarning | frontend/src/stores/app.js:69-71 | appends a warning toast titled "Warning" unless a title is given, with the 5000 ms timer |
| AppStore.App.ShowInfo | frontend/src/stores/app.js:73-75 | appends an info toast titled "Information" unless a title is given, with the 5000 ms timer |
| AuthStore.Auth.constructor | frontend/src/stores/auth.js:6-8 | the store starts with the stored token, no user and not loading |
| AuthStore.Auth.IsAuthenticated | frontend/src/stores/auth.js:10 | authenticated exactly when a non-empty token is held |
| AuthStore.Auth.InitializeAuth | frontend/src/stores/auth.js:12-30 | when both a token and a user are stored they are restored and the authorization header is set; otherwise nothing changes; storage is never written |
| AuthStore.Auth.Establish | frontend/src/stores/auth.js:39-45 | the session's token and user are held, written to storage, and the bearer header is set |
| AuthStore.Auth.Login | frontend/src/stores/auth.js:32-53 | the reply is passed back; success establishes its session; a rejection leaves token, user, storage and header as they were; loading ends false |
| AuthStore.Auth.Register | frontend/src/stores/auth.js:55-76 | the same as login, for the registration reply |
| AuthStore.Auth.Logout | frontend/src/stores/auth.js:78-93 | whether the server call succeeds or not: user, token and header are cleared, token and user are removed from storage, and the store is no longer authenticated |
| AuthStore.Auth.RefreshUser | frontend/src/stores/auth.js:95-109 | success replaces the user in the store and in storage; a rejection keeps both; the token and header never change |
| AuthStore.Auth.ChangePassword | frontend/src/stores/auth.js:111-121 | the reply is passed back and nothing but loading changes |
| AuthStore.LogoutForgets | frontend/src/stores/auth.js:88-89 | after logout the storage holds neither a token nor a user, so a later initialization restores nothing |
| AuthStore.LoginRestores | frontend/src/stores/auth.js:42-43 | after a login with a non-empty token and user, a later initialization finds and restores exactly that session |
| AuthStore.LogoutThenInitialize | frontend/src/stores/auth.js:12-93 | logging out and then initializing the store leaves it logged out, with no user, no header, and neither key in storage |
| AuthStore.LoginThenReload | frontend/src/stores/auth.js:6-53 | after a login with a non-empty token and user, a store created afresh over the same storage and initialized is authenticated with that session's token, user and bearer header |
| Router.DecideCases | frontend/src/router/index.js:164-172 | no route both requires login and is for guests; the guard redirects to login exactly when the route needs login and there is none, to the dashboard exactly when a guest route is visited while logged in, and proceeds otherwise |
| Router.RedirectsSettle | frontend/src/router/index.js:164-172 | navigating to the login page while logged out, to the dashboard while logged in, and to the not-found page always proceeds, so a redirect never redirects again |
| Router.BeforeEach | frontend/src/router/index.js:148-173 | the auth state is initialized first only when no user is held and a token is stored; storage is never written; the decision is the guard's decision for the route's meta and the resulting login state |

## Left out
- Database.ExtractHostFallback: the URL parser is simplified. It does not lowercase the host or percent-decode it, and a scheme without `//` (such as "foo:bar" or "https:x.supabase.co") is treated as unparsable, so it gives "localhost".
- Database.PgDatabase.Connect: the checkout fault is fixed when the pool is built, so every checkout of one pool fails or none does. A pool that fails only some checkouts is not modelled.
- TenantIsolation.BodyId: an array or object in a relationship field gives no id text and matches no row. The text PostgREST would build from it is not modelled.
- Database.PgDatabase.Transaction: the callback is a list of statements that stops at its first failure, not arbitrary code.
- Records.JsonValue: an object in a request body is a single value whose members are not modelled, because the core only ever reads its text, "[object Object]". Numbers are integers, so their exponent form is not modelled.
- monthlyRevenue and averageRent in the lease store: they use floating point and `parseFloat`, which the model does not have.
- LeaseService.GetStats: monthly rents are whole numbers, because the model has no floating point. The rent select and its error are modelled.
- The read-back by `findById` after a create in the lease service: the model returns the inserted row directly.
- getTableInfo and close in database.js: neither takes part in the reminder flow.
- findExpiring, findRecent, count and delete in the lease service: they are outside the reminder core.
- getEmailHistory in the email controller: it is outside the reminder core.
- The query parameters the stores send with fetch: the server reply is a parameter of each action.
- PropertyStore and ContactStore: a reply without data or pagination leaves the source's state undefined; the model stores an empty list and an absent pagination.
- ReminderStore.Store.RunReminderCheck: the two fetches under `Promise.all` run one after the other.
- AuthStore: the user is kept as its stored text, so `JSON.stringify` and `JSON.parse` are left out.
- AppStore.App.ShowToast: the `setTimeout` that removes a toast later is only recorded as a timer; it never fires.
- The clock: in the reminder core, dates are whole day numbers, days until expiration is end day minus today, and the month key comes from a `monthOf` parameter. The Lease model and the lease store use millisecond timestamps instead. Time zones and the calendar are left out.
- EmailController.ContactMailFill: the filled body is stated for names without a `$` pattern. For other names the model expands the patterns as JavaScript does (EmailController.ContactNameDollar), but no closed form is stated.
- The stores do not call the app store themselves. Each action returns its toast as a Notice.
- These are left out because they are I/O or run concurrently: HTML mail bodies, SMTP, the PostgREST query builders, row-level-security policies, signal handlers and console logging.
- Migration: the index and row-level-security statements are kept only as SQL text. Their effect on the database is not modelled.
- LeaseModel: additionalTerms starts as "" where the source leaves it undefined. The length check treats the two the same.
- LeaseModel: the durationDays and daysUntilExpiration virtuals are date arithmetic on `Date` objects and are left out.

## Findings
| source | as written | input that shows it | evidently intended | confidence | as-written member | corrected member |
|---|---|---|---|---|---|---|
| backend/run-migration.js:51-54 | each ';' chunk is trimmed, and a chunk that starts with "--" is dropped whole, so the CREATE TABLE chunk, which opens with a comment line, is never sent | the script itself, or any chunk of the form blank + "--" + comment + line break + DDL followed by further chunks | strip the comment lines and run the DDL beneath them | not executed | Migration.CommentLedChunkSkipped | Migration.CommentLedChunkKept |
