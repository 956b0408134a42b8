# Joysteed MaaS: a Dafny model of its control plane

A model of the parts of the MaaS control plane and gateway that keep state over long runs, with proofs of what they
promise. `dafny verify dfyconfig.toml` checks all of it.

Every database transaction and every Redis script is one atomic step. Whatever the environment decides (delivery of
notifications, failures of the Bifrost store, crashes, the order of a query's rows or of a Go map, fresh random ids) is
an argument of a step, so a statement about every sequence of steps is a statement about every interleaving. Code that
changes things in place is a class with the same fields; its methods are proved against functions of the state, and the
theorems are about those functions.

**1. Virtual-key projection** (`ControlPlane`, `Projection`, `ProjectionSafety`, `ProjectionCache`, `ProjectionFleet`,
`GatewayProcess`). The control plane allocates a generation and writes the key row in one transaction; gateways learn of
it through lossy notifications and write the Bifrost store and their own cache. The state machine has any number of
gateways that may die between any target write and its commit. The loops of the gateway code are proved to be runs of
that machine.

**2. Tenant isolation** (`Policy`, `Tables`, `Statements`, `Isolation`, `IsolationLimits`, `OpenKeys`, `Binding`,
`Migrations`, `MigrationProgress`, `Migrator`, `MigratedIsolation`). The generated row-level security predicates as an
expression tree under SQL's three truth values; a database with visible and hidden rows, MATCH SIMPLE composite keys,
upstream's own single-column keys whose checks and cascades ignore the policies, its unique keys, which are checked row by
row over all rows, and arbitrary transactions; pooled
connections whose settings may be NULL, empty or stale; and the two migration sets, interrupted and resumed over a live
database, with what the pre-flight counts say about whether they get through.

**3. Admission, leases and money** (`Semaphore`, `Quota`, `Attempts`, `Admission`, `Reservations`, `Ledger`, `Pricing`,
`Catalog`). The expiring-lease semaphore, the exactly-once counter, check-then-charge admission, prepaid reservations,
the usage ledger and its invoices, 64-bit prices, and the agreement of the model list with admission.

**4. Redaction** (`Json`, `RequestLog`, `Sanitizer`, `SanitizerExact`, `RequestDetail`, `Audit`, `RedactionPolicies`).
The budgeted request-log sanitizer, the audit redactor, and where their two lists of sensitive keys differ.

## Where the code and its description disagree

The model follows the code. Each of these is a lemma with a concrete witness or an exact condition.

- With two gateways a fence at the tenant's generation does not make the cache right (`TwoGatewaysDisagree`): the row is
  marked applied for all of them by whichever projects it first. Over every run of any number of gateways a cache entry
  is never ahead of its key, and a cache is right for a tenant if and only if its generations match (`CacheExactIff`).
  The gateway that projects a change last and those that knew it before are right until the next change; a caught-up
  gateway that is wrong stays wrong until it is restarted or its tenant is changed (`LastProjectorDecides`,
  `CaughtUpStaysAsItIs`).
- Policies do not isolate tenants by themselves, because the checks and cascades of upstream's single-column keys ignore
  them (`PoliciesAloneLeak`). Tenants can neither observe nor reach each other's rows if and only if every such key with an
  end in a tenant table is matched by an enforced composite edge (`SeparatedIffCovered`, `IsolatedIffEdgesRecorded`). Each
  half has its own condition (`IsolatedIffSealed`, `KeepsOutIffActionsCovered`), and they differ (`ReachedUnseen`).
- Of the two edges that the source names and leaves out, the comment on the one into `config_keys` says that the pool
  policy makes a crossing row unreadable; whether the other tenant's key exists can still be observed
  (`PoolKeyStaysOpen`). The other, from `governance_budgets` into `governance_model_configs`, which has no tenant, either
  lets a tenant delete or change other tenants' budgets or tells it that they exist (`ModelConfigKeyStaysOpen`). Whatever
  keys upstream declares, transactions that point over an unmatched key at rows they see and delete nothing such a key
  could point at are isolated (`MigratedMeansIsolated`); where upstream declares the listed edges and these two, these two
  are all there is to avoid (`TwoKeysAreOpen`).
- Row-level security hides rows, not their unique keys: an INSERT can fail because of another tenant's primary key
  (`HiddenPrimaryKeyShows`), and an INSERT or an UPDATE because of another tenant's session token (`HiddenTokenShows`).
  Where no key of upstream's tells anything, that is the only exception: two transactions differ if and only if they first
  meet a hidden unique key at different points (`SameResultIff`). UNIQUE (tenant_id, id), which the edges need on their
  parents, opens nothing, since the primary key implies it.
- `ChargeOnce` is documented as idempotent per request id. `DoubleCharge` is a run in which a replay is paid twice. It is
  idempotent if and only if the claim's deadline is no earlier than the counter's, which was fixed by the counter's first
  charge (`ReplayAbsorbedIff`). The plugin's rule for the time-to-live meets the condition.
- `RecordUsage` is documented as replay-safe. `UsageLost` is a stream whose second usage is refused and never billed. A
  stream leaves one row per first valid key if and only if those rows do not contend for a row id
  (`ReplaysAddNothingIff`); ids chosen as the gateway chooses them never do.
- The model list agrees with admission for every plan, catalog and hint if and only if the provider it attributes a model
  to has no slash, does not end in white space and is not `unresolved` (`AgreementIff`). The list keeps white space before
  the slash of a qualified id and admission trims it (`SpaceBeforeSlashDisagrees`).
- The audit redactor is described as the one policy that both logs share; the request log has its own. The two agree on
  exactly the keys given by `PoliciesAgreeIff`: the request log alone hides cookies and an `xapikey` without a hyphen or
  underscore before `key` (`RequestLogAloneIff`); the audit log alone hides `key`, what ends in `_key` or `-key`, four
  endings and two words, and words with tabs or line ends around them (`AuditAloneIff`), so `passwd` is shown by the
  request log (`RequestLogKeepsPasswd`).
- `RevealTx` tests the status as well as the desired state; in every consistent database the desired state decides
  (`RevealTxIffDesiredActive`).

## Model

| member | source | states |
|---|---|---|
| ControlPlane.PublishKeepsOutbox | internal/configbus/outbox.go:142-174 | publishing allocates exactly the next generation of its tenant and no other, and the outbox still announces every generation of every tenant once, in order |
| ControlPlane.SaveAtNewGeneration | internal/virtualkey/store.go:204-226 | a row saved at the generation its transaction allocated keeps all tables consistent; no two keys of a tenant share a desired generation |
| ControlPlane.CreateTxOk | internal/virtualkey/store.go:153-202 | creation adds one dirty row at a generation nobody has seen and leaves every other row and tenant alone |
| ControlPlane.MutateTxOk | internal/virtualkey/store.go:204-253 | revoke and retry either change nothing or move one row of that tenant to a new generation and make it dirty; the tables stay consistent |
| ControlPlane.RevealTxIffDesiredActive | internal/virtualkey/store.go:128-151 | a secret is revealed iff the key is desired active; the two status tests never change the answer |
| ControlPlane.Store.Publish | internal/configbus/outbox.go:142-174 | the stored generation and outbox become exactly what the transaction function says; refusals change nothing |
| ControlPlane.Store.Create | internal/virtualkey/store.go:153-202 | the tables become what the transaction function says; a unique violation rolls the allocated generation back |
| ControlPlane.Store.Revoke | internal/virtualkey/store.go:204-226 | whole new state and reply of a revocation, including the idempotent branch that publishes nothing |
| ControlPlane.Store.Retry | internal/virtualkey/store.go:228-253 | only failed keys are retried; whole new state and reply |
| ProjectionSafety.RunSafe | internal/virtualkey/projector.go:57-178 | every step of every participant keeps the inductive invariant tying status, desired and applied generation, tenant generation, fences and passes in progress |
| ProjectionSafety.FenceSafety | internal/configbus/reconcile.go:50-64 | in every run with any number of gateways: a key at or below some fence is applied, applied <= desired <= tenant generation, no fence runs ahead, desired generations are unique per tenant |
| ProjectionSafety.StatusTellsTheTruth | internal/virtualkey/store.go:23-38 | in every run: applied at the desired generation iff status is active or revoked, and then it is the desired state; pending, revoking and failed always mean work is outstanding |
| ProjectionSafety.RevocationIsFinal | internal/virtualkey/store.go:204-226 | after a committed revocation no continuation ever reveals the secret again, and from whatever later state the row is revoked in, it never changes |
| ProjectionCache.RunCacheSafe | internal/virtualkey/projector.go:83-171 | one gateway, restarted at will: every step keeps store and cache in agreement with every row that is up to date |
| ProjectionCache.CacheAgreement | internal/bifrostprojection/virtualkey.go:49-128 | once a tenant is restored, each clean row is in the cache with its current generation iff it should be active, even if the process died between a target write and its commit |
| ProjectionCache.CaughtUpCacheIsExact | internal/virtualkey/projector.go:57-111 | when the fence equals the tenant's generation the cache holds exactly the desired-active keys as they are now |
| ProjectionFleet.EntriesAreNeverAhead | internal/bifrostprojection/virtualkey.go:49-128 | every run, any number of gateways: an entry of the store or of a cache belongs to a key of its tenant and is not ahead of it, and at the key's generation it is the key as it is now and active |
| ProjectionFleet.CacheExactIff | internal/virtualkey/projector.go:57-111 | every run, any number of gateways: a cache is exactly the tenant's desired-active keys iff each of these is cached at its generation and no revoked one is cached; at a caught-up fence nothing is outstanding |
| ProjectionFleet.LastProjectorDecides | internal/virtualkey/projector.go:113-171 | however the system goes on without a restart or a new change, a restored gateway agrees with a key iff it made the last projection or knew the key at that generation before |
| ProjectionFleet.CaughtUpStaysAsItIs | internal/configbus/reconcile.go:50-64 | a caught-up gateway that is right for a tenant stays right and one that is wrong stays wrong until it is restarted or the tenant is changed |
| ProjectionCache.TwoGatewaysDisagree | internal/virtualkey/projector.go:57-171 | a concrete run in which a caught-up gateway keeps serving a revoked and settled key |
| GatewayProcess.Target.Upsert | internal/bifrostprojection/virtualkey.go:49-106 | an incomplete projection is refused and changes nothing; otherwise store and cache hold the projection, or the cache has not moved and the store has moved only if the failed transaction took effect |
| GatewayProcess.Target.Delete | internal/bifrostprojection/virtualkey.go:108-128 | a missing tenant or key is refused; otherwise the key is gone from store and cache, or the cache has not moved and the store has moved only if the failed transaction took effect |
| GatewayProcess.ListDirty | internal/virtualkey/projector.go:57-77 | the outstanding rows of a tenant, each once, oldest desired generation first |
| GatewayProcess.ListActive | internal/virtualkey/projector.go:83-111 | the clean active rows of a tenant, each once |
| GatewayProcess.Projector.RestoreTenantOnce | internal/virtualkey/projector.go:83-111 | marks the tenant as restored iff every snapshot row was accepted; the calls it makes are a run of the protocol |
| GatewayProcess.Projector.ProjectOne | internal/virtualkey/projector.go:113-178 | one dirty row, its store entry and its cache entry after every combination of a refused or accepted target write and a lost or kept row update; any other row is left alone |
| GatewayProcess.Projector.ProjectTenant | internal/virtualkey/projector.go:57-77 | every dirty row is attempted even after one failed; succeeds iff none was refused; the loop is a run of the protocol |
| GatewayProcess.Reconciler.Observe | internal/configbus/reconcile.go:50-64 | invalid and stale notifications do nothing; the fence moves to the generation only if the whole tenant was projected without an error; for an announced generation the call is a run of the protocol |
| GatewayProcess.Reconciler.Reconcile | internal/configbus/reconcile.go:75-87 | one pass with arbitrary replies for each key: tenants whose keys are all accepted end clean with the fence at their generation, no row becomes dirty, the state stays safe |
| GatewayProcess.PassStateStep | internal/configbus/reconcile.go:75-87 | a tenant that has converged stays converged while others are projected, whatever fails there |
| GatewayProcess.HealthyPassFinishes | internal/configbus/reconcile.go:75-87 | a pass with a healthy target, whatever earlier passes left, ends with no outstanding row anywhere, every fence at its generation and no error |
| Policy.PolicyMeaning | internal/migrate/rlspolicy.go:105-176 | three-valued evaluation of the generated USING and WITH CHECK predicates equals a two-valued visibility and write rule, for all three kinds and NULL, empty or stale settings |
| Policy.IsNullWouldDependOnTheConnection | internal/migrate/rlspolicy.go:122-142 | testing for NULL would answer differently on two idle connections; the predicates as generated do not |
| Tables.StrictIffBClass | internal/migrate/tables.go:74-102 | a table is classified strict iff it is B-class, and classified at all iff it is tenant-scoped |
| Tables.EdgesAreStrict | internal/migrate/compositefk.go:65-124 | both ends of every composite foreign key are strict tables |
| Tables.ParentTables | internal/migrate/compositefk.go:129-143 | exactly the referenced tables, each once |
| Statements.RunTxConsistent | internal/migrate/compositefk.go:230-266 | every transaction, cascades included, keeps NOT NULL, the unique keys, the composite keys and upstream's single-column keys, committed or rolled back |
| Statements.DeleteIsNeverBlocked | internal/migrate/compositefk.go:222-229 | a composite key without an action blocks no delete, because upstream's action on the same edge has removed the row or its pointer before the check |
| Isolation.NonInterference | internal/tenant/binding.go:87-98 | where no key of upstream's asks or refuses anything because of a hidden row, two databases that look the same to a tenant and in which it meets no hidden unique key give any statement sequence the same answers and the same end and look the same afterwards |
| Isolation.ForeignKeysDependOnView | internal/migrate/compositefk.go:20-53 | whether the composite foreign keys hold after a tenant's write can be told from that tenant's own rows |
| Isolation.SameResultIff | internal/tenant/binding.go:87-98 | whole transactions behave the same in two such databases iff they first meet a unique key held by a hidden row, primary or other, by INSERT or UPDATE, at the same point |
| Isolation.TxIntegrity | internal/migrate/rlspolicy.go:105-176 | with every upstream key that acts on a table with a policy matched by an edge, a bound transaction changes no row it does not see, by cascade neither, and every new or changed row belongs to its tenant, for all three kinds |
| IsolationLimits.IsolatedIffSealed | internal/migrate/compositefk.go:3-11 | tenants cannot observe each other through any transaction, but for hidden unique keys, iff every upstream key into a table with a policy is matched by an enforced edge and no hidden row can keep another from falling that a tenant can make fall |
| IsolationLimits.SeparatedIffCovered | internal/migrate/compositefk.go:3-11 | tenants can neither observe each other, but for hidden unique keys, nor reach each other's rows iff every upstream key with an end in a table with a policy is matched by an enforced edge |
| IsolationLimits.ReachedUnseen | internal/migrate/compositefk.go:120-124 | a cascading key from a table with a policy into one without: no tenant can observe another and one can delete another's rows |
| IsolationLimits.KeepsOutIffActionsCovered | internal/migrate/compositefk.go:222-229 | no transaction changes a hidden row iff every upstream key that cascades or sets NULL on a table with a policy is matched by an enforced edge, wherever its parent is |
| IsolationLimits.HiddenPrimaryKeyShows | internal/tenant/binding.go:87-98 | two databases that look the same in which the same INSERT succeeds in one and fails in the other |
| IsolationLimits.HiddenTokenShows | internal/migrate/sessions_test.go:33-42 | the same for the unique token of `sessions`: an INSERT with an id of its own and an UPDATE of the tenant's own row fail because of another tenant's token |
| OpenKeys.IsolatedBesidesOpenKeys | internal/migrate/compositefk.go:108-124 | whatever keys no edge matches: a transaction that sets new pointers of them only to rows it sees and deletes no row they could point at behaves the same in two databases that look the same iff it first meets a hidden unique key at the same point, and changes only its own rows |
| Binding.BeginFromIdle | internal/tenant/binding.go:145-249 | on an idle connection a transaction runs in exactly the mode it asked for or does not run |
| Binding.PooledIsFresh | internal/tenant/binding.go:87-249 | after any history of transactions on reused connections every reply and the database are those of a pool that never reuses one, and every connection is idle again |
| Binding.Connection.Bind | internal/tenant/binding.go:224-249 | the setting takes effect or the read-back refuses |
| Binding.Connection.EnablePlatformMode | internal/tenant/binding.go:184-203 | the platform flag takes effect or the read-back refuses |
| Binding.Connection.RunInTenantTx | internal/tenant/binding.go:87-98 | what ran is what a connection bound only to that tenant would have done, and nothing stays behind |
| Binding.Connection.RunAsPlatform | internal/tenant/binding.go:122-124 | runs unbound, whatever the connection served before |
| Binding.Connection.RunAcrossTenants | internal/tenant/binding.go:145-155 | refuses a resolved tenant, otherwise runs in platform mode, and nothing stays behind |
| Migrations.GateCountsAllRows | internal/migrate/runner.go:142-162 | in platform mode the backfill gate's count is the true number of rows without a tenant under any installed policy |
| Migrations.UngatedCountIsBlind | internal/migrate/tenantcolumn.go:161-171 | without platform mode the count under an installed strict policy is zero whatever is in the table |
| Migrations.StrictPolicyHidesNothing | internal/migrate/runner.go:108-162 | a strict policy is installed iff the column exists and no row would be hidden from every tenant |
| Migrations.NoCrossTenantPairs | internal/migrate/tighten.go:171-189 | in every run with failures, resumption and any statements in between, an edge that exists has a NOT NULL child column and no cross-tenant pair, seen by anyone |
| Migrations.NullableColumnLetsPairsThrough | internal/migrate/compositefk.go:230-266 | with a nullable child column the same constraint admits a row that crosses tenants |
| Migrations.EdgesWaitForEveryTable | internal/migrate/tighten.go:57-126 | no edge exists while any B-class table still allows a row without a tenant |
| Migrations.PoliciesMakeEdgesStrict | internal/migrate/runner.go:68-136 | once the policy migrations are recorded, every existing edge stays inside strict tables |
| MigratedIsolation.IsolatedIffEdgesRecorded | internal/migrate/compositefk.go:3-11 | at any point of any run with all policies recorded, whatever keys upstream declares: isolated but for hidden unique keys iff the edge over every key into a tenant table is recorded and none refuses over a hidden row; hidden rows unreachable iff the edge over every key that acts on a tenant table is; both iff the edge over every key with an end in a tenant table is |
| MigratedIsolation.PoliciesAloneLeak | internal/migrate/compositefk.go:3-11 | with every policy and no edge recorded, one key into a tenant table is enough to observe another tenant, and one that acts on a tenant table to change its rows |
| MigratedIsolation.MigratedIsolatedIff | internal/migrate/runner.go:68-136 | the same three statements after complete runs of both sets, with the 23 listed edges for the recorded ones |
| MigratedIsolation.PoolKeyStaysOpen | internal/migrate/compositefk.go:108-119 | the upstream key into the pool table, for which no edge is listed, lets tenants observe each other in every complete deployment, and reach each other's rows if it acts |
| MigratedIsolation.ModelConfigKeyStaysOpen | internal/migrate/compositefk.go:120-124 | in every complete deployment the upstream key from budgets into the table without a tenant lets tenants reach each other's budgets if some key on that edge acts, and observe them if none does |
| MigratedIsolation.OpenAfterwards | internal/migrate/compositefk.go:65-124 | after complete runs the open keys are exactly the upstream keys with an end in a tenant table that are not listed |
| MigratedIsolation.TwoKeysAreOpen | internal/migrate/compositefk.go:108-124 | where upstream declares listed edges and those two only, those two are exactly what is open |
| MigratedIsolation.FreshCompletes | internal/migrate/runner.go:68-136 | whatever keys upstream declares, both sets in turn complete a fresh installation, so complete deployments exist |
| MigratedIsolation.MigratedMeansIsolated | internal/migrate/runner.go:68-136 | any two deployments, whatever keys upstream declares, at any point with all policies recorded, that look the same to a tenant: a transaction that avoids the open keys behaves the same in both iff it first meets a hidden unique key at the same point, and changes nothing but its tenant's rows |
| MigratedIsolation.ListedKeysNeedNoAvoiding | internal/migrate/compositefk.go:65-106 | after complete runs over keys that are listed wherever they touch a tenant table, every transaction avoids the open keys |
| MigrationProgress.FinishesIff | internal/migrate/runner.go:190-205 | a set gets through iff the rows are ready for every migration not yet recorded; otherwise no number of attempts gets it through |
| MigrationProgress.TighteningFinishesIffClean | internal/migrate/tighten.go:157-189 | at any point of any run with all columns added, the tightening gets through iff both pre-flight counts, taken in platform mode before it starts, are zero everywhere |
| MigrationProgress.WideningFinishesIff | internal/migrate/runner.go:207-235 | the widening gets through iff the tables that want a column exist and those that want a strict policy have no unattributed row by the operator's count |
| MigrationProgress.PairsIff | internal/migrate/tighten.go:157-189 | the joining count of crossing pairs is zero iff the edge would hold, given attributed children and upstream's key, which excludes dangling pointers |
| Migrator.Catalog.InstallTenantPolicy | internal/migrate/rlspolicy.go:70-99 | gate first, then drop and create; errors change nothing |
| Migrator.Catalog.AddTenantFK | internal/migrate/compositefk.go:230-266 | refuses a nullable child column, an unclassified parent and existing rows that violate; otherwise adds the edge once |
| Migrator.Catalog.Migrate | internal/migrate/runner.go:171-213 | applies the pending migrations in order, halts at the first failure with that migration's error, and can be resumed |
| Semaphore.NeverOverLimit | internal/fairness/semaphore.go:33-59 | at every instant of every run of acquire, renew, release and time the live leases of each tenant and provider stay within their limits |
| Semaphore.Redis.Acquire | internal/fairness/semaphore.go:90-111 | the lazily purged sets and lease keys grant exactly when the eager table of unexpired leases does, and refine its step |
| Semaphore.Redis.Renew | internal/fairness/semaphore.go:113-129 | extends a live lease and brings no expired one back; no other slot changes |
| Semaphore.Redis.Release | internal/fairness/semaphore.go:131-142 | takes away this lease and nothing else, also when the token is old |
| Semaphore.Redis.Tick | internal/fairness/semaphore.go:33-59 | with time the table loses exactly the expired leases although keys and set members are still stored |
| Quota.TtlMillis | internal/quota/counter.go:93-102 | a positive duration below a millisecond becomes one millisecond and never "no expiry"; otherwise it is truncated to milliseconds |
| Quota.Redis.ChargeOnce | internal/quota/counter.go:40-55 | whole new state and reply of the script, its error paths and the 64-bit refusal |
| Quota.Redis.Charge | internal/quota/counter.go:31-39 | adds every time; the deadline is set only by the charge that creates the counter |
| Quota.ReplayAbsorbedIff | internal/quota/counter.go:126-154 | a replay is absorbed throughout the counter's life iff the claim's deadline is no earlier than the counter's |
| Quota.ShorterClaimPaysTwice | internal/quota/counter.go:126-154 | for every counter created with a longer life than a later claim, a replay between the two deadlines is charged again |
| Quota.DoubleCharge | internal/quota/counter.go:126-154 | a concrete replay, two minutes after a charge with a life of one, that is paid twice |
| Quota.CounterIsSumOfDistinctRequests | plugins/tenantusage/plugin.go:218-245 | in every run under the plugin's rule the counter is the sum of the charges applied since its creation and no request is among them twice |
| Quota.MonthCountsFirstCharges | plugins/tenantusage/plugin.go:218-245 | until a day after the month's end, without resets, the counter is the sum over distinct requests of the first charge each asked for |
| Attempts.LastSeparator | internal/billing/billing.go:522-530 | the last separator of an idempotency key is the one put there, whatever the request id contains |
| Attempts.KeysNeverCollide | plugins/tenantusage/plugin.go:215-223 | different (request, attempt) pairs have different keys |
| Attempts.RequestRecoveredIff | internal/billing/billing.go:522-530 | a row without the newer column leads back to its request iff the request id was not empty |
| Admission.AdmitIff | plugins/tenantusage/plugin.go:129-147 | admitted iff allowed, priced and, under reject, the larger of ledger and counter is below the included credit; used and remaining credit follow from the same maximum |
| Admission.OverageBound | internal/billing/billing.go:739-798 | with at most k requests between reading and charging and at most c charged for each, the counter never exceeds included - 1 + c * k, for any interleaving of any number of gateways |
| Admission.OverageBoundAttained | internal/billing/billing.go:739-742 | for every included credit, k and c some run reaches that bound, so no smaller one holds |
| Admission.SettledAtMostOnce | plugins/tenantusage/plugin.go:173-193 | charges <= settlements <= admissions <= 1 for every request, however often the hook is called; a refused request is never charged |
| Admission.OnlyChargesRaise | plugins/tenantusage/plugin.go:229-237 | the counter rises only when a settled request is charged, and by that charge |
| Admission.Plugin.PreLLMHook | plugins/tenantusage/plugin.go:99-162 | every reply, the failing lookups and missing tenant or model included; the two readings, the lease and its refusal as steps of the machine |
| Admission.Plugin.PostLLMHook | plugins/tenantusage/plugin.go:173-253 | the first call that sees the end gives back the lease, settles, charges and records, with price and markup in 64 bits, unless the ledger refuses negative numbers or the month is over; every other call changes nothing |
| Admission.ChargeWithoutOverflow | plugins/tenantusage/plugin.go:227-228 | unless the product or the sum overflows, the charge is the provider's cost and the markup on it, rounded down |
| Reservations.MoneyIsConserved | internal/billing/billing.go:800-872 | over every run with replays: reserved is the initial amount plus the open reservations, initial balance is balance plus captured, 0 <= reserved <= balance within 64 bits |
| Reservations.TransitionSucceedsIff | internal/billing/billing.go:841-872 | in every reachable state a release or capture succeeds iff the reservation is open or already at that end; the guard against negative amounts never answers |
| Reservations.EndsAreFinal | internal/billing/billing.go:841-872 | tenant and amount of a reservation never change and at most one of released and captured is ever reached |
| Reservations.ReserveReplay | internal/billing/billing.go:800-832 | repeating a successful reservation at any later time answers with it and changes nothing |
| Reservations.Store.Reserve | internal/billing/billing.go:800-832 | whole new state and reply, including conflicts and an insufficient balance |
| Reservations.Store.TransitionReservation | internal/billing/billing.go:841-872 | whole new state and reply of release and capture |
| Ledger.ReplaysAddNothingIff | internal/billing/billing.go:345-396 | a stream leaves one row per first valid input of each key iff those rows do not contend for a row id |
| Ledger.SharedIdLosesUsage | internal/billing/billing.go:345-396 | of any two valid usages with different keys and one row id the second is refused and leaves no row |
| Ledger.UsageLost | internal/billing/billing.go:345-396 | two concrete usages of which the second, billed at 11 micros, is lost |
| Ledger.IdsFollowKeys | internal/billing/billing.go:345-396 | with ids that are empty or equal to the key the ledger is that of the first valid inputs |
| Ledger.InvoiceIsFinal | internal/billing/billing.go:419-452 | an issued invoice never changes and is what any later request for it returns |
| Ledger.InvoiceIsCompleteIff | internal/billing/billing.go:419-452 | an invoice stays the ledger's subtotal of its window iff no later call records a new usage with an amount in that window |
| Ledger.AdjacentWindowsSum | internal/billing/billing.go:419-452 | the subtotals of adjacent windows, however many, sum to the subtotal of their union |
| Ledger.NeverBilledBelowCost | internal/billing/billing.go:369-381 | in every window of a recorded ledger the platform cost is at most what the tenant is billed |
| Ledger.Store.RecordUsage | internal/billing/billing.go:345-396 | whole new ledger and reply: validation, replay, tenant conflict, taken row id, BYOK amount |
| Ledger.Store.EnsurePeriod | internal/billing/billing.go:402-414 | the first end given to a period stays; an empty window is refused |
| Ledger.Store.IssueInvoice | internal/billing/billing.go:419-452 | whole new state and reply |
| Pricing.RoundsUp | internal/billing/billing.go:699-706 | a price is the exact cost rounded up to a micro and is zero iff the cost is |
| Pricing.SplittingCosts | internal/billing/billing.go:699-707 | a request billed in n parts costs at least the whole price and at most 2 * (n - 1) micros more |
| Pricing.SplittingBoundIsMet | internal/billing/billing.go:699-707 | for every n up to a million some split costs exactly that much more |
| Pricing.PriceExactIff | internal/billing/billing.go:699-707 | the 64-bit price is exact iff neither product overflows; otherwise it is too low |
| Pricing.PriceUsage | internal/billing/billing.go:680-707 | the first candidate with a row is priced; not found iff none has one; invalid input is refused |
| Pricing.PricedModelsAreFound | internal/billing/billing.go:758-771 | a model counts as priced iff PriceUsage finds a row for it |
| Catalog.ModelIdMatches | internal/billing/billing.go:724-737 | true iff some candidate of the model is configured |
| Catalog.AllowedModel | internal/modelaccess/filter.go:80-102 | listed iff some candidate is allowed and priced, under the provider the model is attributed to |
| Catalog.ListAgreesWithAdmission | internal/modelaccess/filter.go:80-102 | a model is listed iff admission under its canonical SKU finds it allowed and priced, for providers without a slash, without white space at the end and other than `unresolved` |
| Catalog.AgreementIff | plugins/tenantusage/plugin.go:164-171 | that condition is exact: every provider meets it iff list and admission agree on every plan, catalog, hint and model attributed to it |
| Catalog.SpaceBeforeSlashDisagrees | internal/modelaccess/filter.go:104-109 | for every provider with white space before the slash of a qualified id, a plan that lists the model and does not admit it |
| Catalog.KeptExactly | internal/modelaccess/filter.go:41-78 | filtering drops no listed model, doubles none and keeps no other |
| Catalog.ProvidersOfKept | internal/modelaccess/filter.go:60-74 | a key status stays iff some kept model belongs to its provider, ignoring case |
| Catalog.ListModelsResponse.FilterListModels | internal/modelaccess/filter.go:41-78 | models, statuses and page ids after filtering in place |
| Sanitizer.CleanAbridges | internal/requestlog/requestlog.go:131-208 | for every tree, iteration order and budget the output abridges the input entry by entry under its own keys, and the byte budget is never negative |
| Sanitizer.AbridgementIsSafe | internal/requestlog/requestlog.go:131-194 | an abridgement holds a marker under every sensitive key at any depth and stays within depth, width and string limits |
| Sanitizer.CleanPaid | internal/requestlog/requestlog.go:131-194 | for every tree, order and budget, counted along the run: bytes copied are the byte budget spent, values visited the node budget spent, and at most a hundred values come out per value visited |
| Sanitizer.CopiedOrMarked | internal/requestlog/requestlog.go:131-194 | the output is the bytes copied on the run and its marks: at most fourteen bytes for each, at most one for each value put out |
| SanitizerExact.ExactIffFits | internal/requestlog/requestlog.go:131-208 | no flag is raised iff the tree fits the remaining budget, and then the output is the input |
| RequestLog.SanitizeBudget.Clean | internal/requestlog/requestlog.go:131-208 | the code that counts the budget down in place computes the cleaning function and its budget |
| RequestDetail.ProjectDetail | internal/requestlog/requestlog.go:77-102 | the four parts cleaned in turn under one budget |
| RequestDetail.NoFlagNoChange | internal/requestlog/requestlog.go:77-102 | if neither flag is set the view shows every part unchanged |
| RequestDetail.DetailIsSafe | internal/requestlog/requestlog.go:77-102 | hidden content never appears and no credential or overdeep value does |
| RequestDetail.DetailIsBounded | internal/requestlog/requestlog.go:11-18 | over all four parts at most 512 KiB of keys and strings are copied and at most 2000 values are visited; at most 4 + 100 * 2000 values come out, and what comes on top is at most fourteen bytes for each mark written, so the whole view is bounded |
| Audit.RedactedAt | internal/audit/audit.go:241-261 | path by path: same shape and keys, and a leaf is replaced iff a sensitive key lies on its path |
| Audit.RedactIdempotent | internal/audit/audit.go:241-261 | redacting again changes nothing |
| Audit.SameRowIff | internal/audit/audit.go:206-215 | two snapshots are stored as the same row iff they have the same shape and differ only in leaves below sensitive keys |
| RedactionPolicies.RequestLogAloneIff | internal/requestlog/requestlog.go:210-219 | the keys that the request log alone hides: cookies, and an `xapikey` whose trimmed lower-case form ends in neither `_key` nor `-key` |
| RedactionPolicies.AuditAloneIff | internal/audit/audit.go:183-204 | the keys that the audit log alone hides |
| RedactionPolicies.PoliciesAgreeIff | internal/audit/audit.go:204-206 | the exact condition on a key under which both policies decide alike |
| RedactionPolicies.AuditKeepsCookies | internal/requestlog/requestlog.go:210-219 | cookies are hidden by the request log and never by the audit log |
| RedactionPolicies.RequestLogKeepsPasswd | internal/audit/audit.go:183-204 | every key that ends in `passwd` is hidden by the audit log and never by the request log |

## Left out

- HTTP handlers, routing, the UI, process wiring, configuration parsing and deployment files.
- `internal/tenant/store.go`, `internal/bifroststore`, `internal/governance`, `internal/rediskv`, `internal/controlplane`, `internal/rbac`, `internal/member`, `internal/authn`, `internal/rls`, `internal/rlsspike`: wrappers, small tables or catalog reads that would only add easy members.
- Encryption, SHA-256, bcrypt and random ids: the key row keeps its secret in plain, Redis keys keep the parts they hash, ids and tokens are fresh arguments.
- The columns `created_at`, `activated_at`, `revoked_at`, `updated_at`, `key_prefix` and fingerprints of a key row, and the text of `sanitizedError`: an error is an opaque reason.
- The 64-bit width of generations; the branch of `projectOne` for a desired state that is neither active nor revoked, which no transaction writes.
- ProjectionCache.CaughtUpCacheIsExact: is about one gateway process at a time, because applied generations are shared by all gateways while restore set and cache are per process; with two it is false, as TwoGatewaysDisagree shows, and ProjectionFleet says what holds instead.
- GatewayProcess.ListActive: the query's ORDER BY id is not modelled, since the collation of ids is the database's; any order is allowed.
- Tables.ParentTables: the sort by name is not modelled; any order is allowed.
- GatewayProcess.ListDirty: is given the rows of the tables rather than a cursor over a changing table; a mutation during the loop is a step of the protocol, not of this method.
- GatewayProcess.Reconciler.Reconcile: assumes that nothing else writes the tables during the pass; concurrent writes are covered by the statements about runs.
- The order in which a listing without ORDER BY returns rows: any order is allowed.
- Isolation.NonInterference: excludes transactions that meet a unique key held by a hidden row, which is the exact exception (SameResultIff); errors are told apart by kind, not by the text of their messages; updates of primary keys, ON CONFLICT, RETURNING, sequences, timing and the physical order in which an UPDATE visits its rows are not modelled; checks that look at one row only are not either, since they read nothing hidden.
- Which keys upstream declares, unique ones included, and with what action on a delete is a parameter. Where exactness needs a counterexample (IsolatedIffSealed, KeepsOutIffActionsCovered, SeparatedIffCovered and what follows from them) a column points at one table only; isolation and integrity themselves need no such condition.
- Writes of a bound transaction to rows without a tenant in a pool table: the FOR ALL clause makes them reachable, so nothing is said about their staying unchanged.
- Migration rollbacks, the legacy column migrations of billing, SQL identifier checks, index names and lock timeouts.
- Redis pub/sub, goroutines, tickers, jitter and the renewal loop: deliveries, renewals and the passing of time are steps.
- One clock for gateways and Redis, in milliseconds: skew and the sub-millisecond truncation of a time-to-live against the clock are not modelled.
- Quota.Redis.ChargeOnce: Lua's conversion of a total beyond 2^53 in the reply is not modelled; the stored counter is exact.
- Admission.OverageBound: covers a plugin with a counter, one tenant and one month; requests whose month ended before they settled are charged to the month they were admitted in, as in the code.
- Admission.Plugin.PostLLMHook: takes the reported usage, the catalog price and the replies of Redis and the database as arguments; extracting usage from response types, rounding floating-point cost and the renewal loop are left out, and the sum in the stored counter and ledger is unbounded; a usage recorded after the month's end is left to the ledger of its own month.
- Admission.Plugin.PreLLMHook: a model of white space only is a failing ledger lookup, as in the code; a plugin without a counter is not modelled.
- UpsertAccount after provisioning: it overwrites the reserved amount, so it appears only as the initial state.
- Ledger.Store.RecordUsage: the sums of tokens and of cost and markup are unbounded integers; a period is identified by tenant and start rather than by their concatenation.
- RequestLog.SanitizeBudget.Clean: the branch for values that are not decoded JSON is left out, since every caller passes decoded JSON.
- Letters are lowered and white space is trimmed for characters below U+0100 and ASCII letters only; one character is one byte.
- RedactJSON's parsing and printing of JSON text.
