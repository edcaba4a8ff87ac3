# Verified model of the user center's authorization, payment, AI gateway and OAuth core

A Dafny 4.11 model of the parts of the repository where state, ordering or arithmetic decide correctness:

- **Authorization catalog** (`authorization/catalog.go`). `Apply` normalizes and validates a declarative
  catalog and reconciles it into eleven tables. `Text` and `Catalog` hold the string helpers, the catalog
  and its validation; `Reconcile` is the theory of one upsert pass, shared by roles, menus, APIs and
  functions; `CatalogStore` says what one run makes of the tables, and `AuthorizationStore` runs it statement by
  statement on a store object. `CatalogFunctions`, `CatalogGrants`, `CatalogRules`, `CatalogTheorems`,
  `CatalogSettling`, `CatalogHealing`, `CatalogRuns`, `CatalogMeaning`, `CatalogEdits` and `CatalogSeeding` prove what
  runs promise; `CatalogExample` takes a small catalog through them, so their hypotheses can be met.
- **Run-time evaluation** (`authorization/evaluate.go`): `Evaluate`.
- **Payments** (`pay/`): `Delivery` (the once-only ledger as a concurrent protocol), `Base64` and `PushCrypto`
  (the push channel), `XPay` (price arithmetic), `Refunds` (the query-then-refund protocol).
- **AI gateway** (`http/aigateway.go`, `http/aigateway_ext.go`): `Gateway` (retries) and `ChatRewrite`.
- **AI administration** (`http/admin_ai_lifecycle.go`): `AiLifecycle`.
- **OAuth** (`http/oidc.go`): `AuthCodes` and `RefreshTokens`.

Code that changes state is modelled by classes and methods, each proved against a specification on values;
the theorems are about that specification. Concurrent protocols are state machines with one event per SQL
statement or locked section, and the theorems range over all their runs.

## How databases, clocks and other outside things appear

- A table with a string primary key is a map; a table queried only by a pair of columns is the sequence of
  its rows, deleted ones included where the code looks for them. The link and grant tables have random
  primary keys, so where a new row lands among the others is unspecified; the code only ever looks up rows of
  one pair, and it adds a row only when the pair has none, so the model appends.
- The Casbin table has a unique index over its columns (`internal/permission/adapter.go:48-57`), so it is a set.
- GORM stores a column's `default:` in place of a zero value when it creates a row. The repository says so
  itself (`internal/pricing/pricing.go:12`, `internal/auth/mfa_test.go:137`). It matters for roles
  (`internal/permission/role.go:30-35`: `can_del`, `enable`, `default_router`) and for AI providers, keys and
  routes (`internal/apikey/apikey.go:31`, `:47`, `:63`).
- The order in which Go walks a map is a parameter (`walk`); the theorems hold for every order.
- The AI administration's operations are reached with trimmed tenants (`http/admin.go:799-807`), which its integrity
  theorems ask for. `AiLifecycle.UntrimmedTenantOrphansKey` shows why: deleting a provider compares the tenant
  as given in one query and trimmed in the other.
- Random values are drawn fresh, clocks do not run backwards, AES is any block permutation with its inverse,
  SHA-1, HMAC and SHA-256 are any functions, and the model selector, the payment platform, templates and
  stored conversations are parameters.

## Where the code does not do what its comments say

- `Apply` is called idempotent (`authorization/catalog.go:130-133`). For a catalog with distinct role names and
  distinct menu names, the second run resolves every ID as the first did exactly when the catalog is `Compatible` with
  the store before: in no table does a definition whose own ID is missing find, by its natural key and among the rows no
  earlier definition owns, the row that a later definition has the ID of (`CatalogRuns.SecondRunResolves`). Then the
  second run changes at most the roles the first had to create, and none exactly when there were none
  (`CatalogRuns.ApplyTwice`; `CatalogRuns.FreshRoleIsHealedLater` is an input with one). `CatalogRuns.ApplyDrifts` is an
  incompatible store; two roles that swapped their names are compatible (`CatalogRuns.SwappedNamesAreCompatible`).
  Whatever the store held, the runs settle (`CatalogRuns.ApplySettles`).
- Validation lets two roles, or two menus, share a name. `CatalogRuns.NamesakesDrift` is a store on which the second
  run then resolves one of them differently; the theorems on IDs ask for distinct names.
- `Apply` promises to retain custom rows (`authorization/catalog.go:130-133`), but it ends by rebuilding the Casbin
  rules of the subjects "0" and "-1" from the API table (`:267-268`). Custom rules of these two are lost, as
  `CatalogEdits.CustomRowsAreKept` states; and validation lets a role have such an ID, whose published rules the
  same run then deletes. `CatalogMeaning.JustifiedRuleSurvives` says exactly which remain, and
  `CatalogExample.ReservedRoleLosesItsRule` is an input.
- Administrators' edits survive later runs only if the catalog is recognized as applied, which is so exactly
  when some menu or API (in a catalog with neither, some role) got its own catalog ID:
  `CatalogSeeding.WhenAppliedIsRemembered`. A catalog whose menus and APIs were all found by name under other
  IDs seeds again; `CatalogSeeding.EditIsLost` is such an input.
- `Once` answers (false, nil) "when already delivered" (`pay/delivery.go:37`). A caller that conflicted with a
  holder whose `deliver` then failed gets the same answer for a transaction nobody delivered:
  `Delivery.AlreadyWithoutDelivery`; `Delivery.AlreadyMeansDelivered` and `Delivery.AlreadyMeansDeliveredOrReleased`
  say what the answer means.
- Refresh rotation locks only the lookup (`http/oidc.go:266-269`) and ignores a failing revocation (`:286`). Over runs of
  interleaved handlers a family stays linear exactly when every statement is harmless: `RefreshTokens.LinearExactly`;
  `RefreshTokens.TwoHandlersFork` is a run in which one forks.
- Messages of 2^32 bytes or more do not survive the push encryption: `PushCryptos.DecryptsToItself`.
- The token endpoint does not compare `redirect_uri` with the one of the authorization, as section 4.1.3 of
  RFC 6749 asks. `AuthCodes.AnyURIRedeems` is a run that redeems a code with any other URI;
  `AuthCodes.URIsAgreeExactlyForOne` says for which clients the two URIs agree all the same.
- A prompt template is said to be appended to an existing system message (`http/aigateway_ext.go:104-111`). A system
  message whose content is not a string is overwritten instead: `ChatRewrite.SystemPartsAreLost` is an input,
  `ChatRewrite.ClientMessagesAreSuffix` has the exact condition.

## Model

| member | source | states |
|---|---|---|
| `Text.TrimIsTrimmed` | authorization/catalog.go:339-403 | trimming leaves no outer white space, only characters of the input, and nothing to trim |
| `Text.NormalizeStringSet` | authorization/catalog.go:1068-1084 | the list is the ascending listing of the distinct, trimmed, non-blank values; `normalizeRoleIDs` is the same algorithm |
| `Text.SortStringsSorts` | authorization/catalog.go:1082 | sorting gives an ordered permutation |
| `Text.SortedUnique` | pay/xpay_push.go:29-34 | an ordered list is determined by its members |
| `Text.AscendingUnique` | authorization/catalog.go:1068-1084 | a strictly ascending list is determined by its set of members |
| `Text.NormalizedSetIsClean` | authorization/catalog.go:1068-1084 | a normalized list is clean and is its own normalization |
| `Text.SplitJoin` | authorization/catalog.go:817-818 | splitting undoes joining for comma-free parts |
| `Text.CsvRoundTrip` | authorization/catalog.go:1086-1093 | `csvSet` gives back the joined names exactly when none holds a comma |
| `Catalog.CatalogDraft.Normalize` | authorization/catalog.go:339-403 | the caller's slices are rewritten in place into the normalized catalog |
| `Catalog.NormalizationIsIdempotent` | authorization/catalog.go:339-403 | normalizing twice is normalizing once |
| `Catalog.ValidateRoles` | authorization/catalog.go:405-451 | accepted exactly when tenant, project, default role and roles meet the declarative conditions |
| `Catalog.ValidateAPIs` | authorization/catalog.go:453-477 | accepted exactly when IDs are present, short and unique, paths absolute, methods known, and no two APIs share method and path |
| `Catalog.ValidateMenus` | authorization/catalog.go:479-528 | accepted exactly when menus and functions are complete, IDs unique, names unique per menu, APIs and parents known |
| `Catalog.ValidateGrants` | authorization/catalog.go:529-566 | accepted exactly when every grant and policy refers to declared roles, menus and functions and scopes are valid |
| `Catalog.Validate` | authorization/catalog.go:405-566 | validation accepts exactly the well-formed catalogs |
| `Catalog.NulJoinInjective` | authorization/catalog.go:472-476 | NUL-joined keys come apart again, so equal keys mean equal method and path |
| `Reconcile.RowsApart` | authorization/catalog.go:582-778 | unmerged definitions never share a row |
| `Reconcile.AheadStep` | authorization/catalog.go:582-778 | upserting one definition leaves, to those still to come, exactly the rows that no definition so far owns by ID |
| `Reconcile.UpsertAllReconciles` | authorization/catalog.go:161-205 | a whole pass in closed form, whatever the table held: each definition's row healed or created unless a later one took it, all other rows and keys as they were, the ID map exact |
| `Reconcile.UpsertTwice` | authorization/catalog.go:161-205 | a second pass resolves every ID as before exactly when the first merged no two definitions, changes no row exactly when the first settled them all, and merges none itself |
| `Reconcile.FoundAgain` | authorization/catalog.go:582-590 | after a pass a definition finds the row it got, or, where a later one took that, the least spare row with its key |
| `Reconcile.UnmergedAcross` | authorization/catalog.go:185-205 | functions whose menus moved between the passes: the second pass still merges none |
| `AuthorizationStores.AuthorizationStore.UpsertRole` | authorization/catalog.go:582-629 | finds by ID, else by name, else creates with column defaults; heals what it finds |
| `AuthorizationStores.AuthorizationStore.UpsertMenu` | authorization/catalog.go:631-688 | the same for menus |
| `AuthorizationStores.AuthorizationStore.UpsertAPI` | authorization/catalog.go:690-743 | the same for APIs, by path and method |
| `AuthorizationStores.AuthorizationStore.UpsertFunctions` | authorization/catalog.go:185-205 | the nested loops over menus, functions and API bindings run the function pass |
| `AuthorizationStores.AuthorizationStore.EnsureFunctionAPI` | authorization/catalog.go:780-800 | creates the pair or restores its first row |
| `AuthorizationStores.AuthorizationStore.EnsureRoleGrant` | authorization/catalog.go:802-826 | writes a grant only when seeding and only if no row, live or deleted, exists |
| `AuthorizationStores.AuthorizationStore.EnsureTenantGrant` | authorization/catalog.go:828-845 | the same for tenants |
| `AuthorizationStores.AuthorizationStore.EnsureABACPolicy` | authorization/catalog.go:847-885 | adds a missing policy; rewrites an existing one only when seeding |
| `AuthorizationStores.AuthorizationStore.CheckPreviouslyApplied` | authorization/catalog.go:277-337 | answers exactly whether a menu, an API, in role-only catalogs a role, or a tenant grant bears a catalog ID |
| `AuthorizationStores.AuthorizationStore.EnsureCasbinRules` | authorization/catalog.go:887-976 | adds the rules the loops produce, removes none, and counts them with repeats |
| `AuthorizationStores.AuthorizationStore.EnsureUserRole` | authorization/catalog.go:1033-1066 | succeeds exactly for a live user and a live, enabled role open to the user's tenant; reports whether a link changed |
| `AuthorizationStores.AuthorizationStore.BackfillDefaultRole` | authorization/catalog.go:992-1010 | gives the role to every live user of the tenant without a live role, and counts them |
| `AuthorizationStores.DefaultRoleIsUsable` | authorization/catalog.go:243-256 | whatever the store held, the default role's row is live, enabled and of the catalog's tenant when the backfill starts |
| `AuthorizationStores.AuthorizationStore.Apply` | authorization/catalog.go:134-275 | one run leaves exactly the specified tables, the rebuilt rules of "0" and "-1" included, and the summary; or an error and the tables as they were |
| `AuthorizationStores.AuthorizationStore.RebuildSubject` | internal/permission/api.go:172-250 | the subject's rules become exactly those of the live APIs open to it, and no other rule changes |
| `CatalogFunctions.PassTwice` | authorization/catalog.go:185-205 | the function pass run on its own result changes neither functions nor bindings |
| `CatalogGrants.SeedTwice` | authorization/catalog.go:802-845 | a second, no more eager seeding changes nothing |
| `CatalogGrants.PoliciesTwice` | authorization/catalog.go:847-885 | a second, no more eager policy pass changes nothing, even with several policies per target |
| `CatalogGrants.BackfillCompletes` | authorization/catalog.go:992-1010 | after a backfill no live user of the tenant is without a live role |
| `CatalogRules.ReverseLookup` | authorization/catalog.go:978-990 | in whatever order the ID map is walked, an injective one leads back to the one definition |
| `CatalogRules.FunctionFound` | authorization/catalog.go:910-946 | a declared function is found by menu row ID and name |
| `CatalogRules.RulesExact` | authorization/catalog.go:887-990 | a rule is produced exactly when a declared grant's function is in both live lists and declares the rule's API |
| `CatalogTheorems.MenusInjective` | authorization/catalog.go:170-177 | distinct menus resolve to distinct rows |
| `CatalogTheorems.FunctionIDsInjective` | authorization/catalog.go:188-205 | distinct functions resolve to distinct rows, and every one resolves |
| `CatalogTheorems.ResourcesTwice` | authorization/catalog.go:161-205 | reconciling resources again with a compatible catalog keeps every ID and every table but possibly role rows |
| `CatalogTheorems.WalkIsIrrelevant` | authorization/catalog.go:978-990 | the produced rules do not depend on the order of the walk |
| `CatalogTheorems.PublishTwice` | authorization/catalog.go:157-241 | publishing twice, whatever happened to user roles and rules in between, changes at most created roles and adds the same rules |
| `CatalogSettling.CompatibleAfter` | authorization/catalog.go:161-205 | whatever the store held, after one reconciliation the catalog is compatible with it |
| `CatalogSettling.StableExactly` | authorization/catalog.go:161-205 | reconciling again resolves every ID as before exactly when the catalog was compatible |
| `CatalogHealing.ApplyHeals` | authorization/catalog.go:130-133 | after a run every declared role, menu, API and function is live under its resolved ID with the declared columns, and every declared binding is live, exactly when the catalog was compatible with the store |
| `CatalogRuns.ApplyTwice` | authorization/catalog.go:130-275 | with a compatible catalog the second run returns the same rule count, adds no user role, and changes no table, rebuilt rules included, exactly when every role existed before the first |
| `CatalogRuns.SecondRunResolves` | authorization/catalog.go:130-275 | whatever the store held, the second run finds the catalog compatible, and it resolves every ID as the first did exactly when it was compatible before |
| `CatalogRuns.RunsAgain` | authorization/catalog.go:134-275 | where one run succeeds, so does the next |
| `CatalogRuns.ApplySettles` | authorization/catalog.go:130-275 | whatever the store held, the fourth run is a no-op, the third changes nothing but roles the second created, and with a compatible catalog it changes nothing |
| `CatalogRuns.FreshRoleIsHealedLater` | authorization/catalog.go:600-621 | one role on an empty store: the second run does change it |
| `CatalogRuns.CrossedDefinitionsDrift` | authorization/catalog.go:582-590 | without the hypothesis on natural keys, two definitions merge on the first pass and part on the second |
| `CatalogRuns.ApplyDrifts` | authorization/catalog.go:582-629 | a store and a catalog on which the second run of `Apply` creates a role that the first merged into another |
| `CatalogRuns.SwappedNamesAreCompatible` | authorization/catalog.go:582-590 | a store on which two roles swapped names is compatible: both are found by their own IDs |
| `CatalogRuns.NamesakesDrift` | authorization/catalog.go:405-451 | two roles of one name, valid, and a store on which the second run resolves the first of them to another row |
| `CatalogMeaning.ApplyPublishesJustifiedRules` | authorization/catalog.go:236-268 | after a run the rules of ordinary subjects are those before and exactly the justified ones, those of "0" and "-1" exactly the API table's |
| `CatalogMeaning.JustifiedRuleSurvives` | authorization/catalog.go:236-268 | a justified rule is there after the run exactly when its role resolves to an ordinary ID, or the API needs no authorization and is itself open to the reserved ID or shares path and method with an open row the catalog leaves alone |
| `CatalogMeaning.PublishedRulesAreTheMeaning` | authorization/catalog.go:134-275 | on an empty store the rule set is precisely what the catalog's grants, functions and APIs say, and for "0" and "-1" what its APIs leave open |
| `CatalogExample.ShopPublishesOneRule` | authorization/catalog.go:134-275 | a catalog with one role, menu, function, API and grant, applied to an empty store, publishes exactly the one rule it means |
| `CatalogExample.OpenShopAddsLoginRule` | internal/permission/api.go:188-217 | the same catalog with an API that needs no authorization also opens it to whoever logged in |
| `CatalogExample.ReservedRoleLosesItsRule` | authorization/catalog.go:267-268 | the same catalog with the role ID "0": it means a rule, and no rule is left after the run |
| `CatalogEdits.LookupsHit` | authorization/catalog.go:161-257 | after validation every ID looked up during a run has an entry |
| `CatalogEdits.CustomRowsAreKept` | authorization/catalog.go:130-133 | rows no definition claims, and all grants, users, links and ordinary rules, survive a run; policies change only where declared, and the rules of "0" and "-1" become the API table's |
| `CatalogSeeding.SeededOnce` | authorization/catalog.go:157-160 | in any run with administrator edits, a marked catalog's later applications leave grants and existing policies alone |
| `CatalogSeeding.GrantsAreSeededOnce` | authorization/catalog.go:207-234 | the same, from an application that put a menu or API (or, with neither, a role) under its own ID |
| `CatalogSeeding.WhenAppliedIsRemembered` | authorization/catalog.go:277-337 | a run is remembered exactly if an earlier one was, or some menu or API (with neither, some role) resolves to its own ID |
| `CatalogSeeding.PolicyEditsKeptOrReset` | authorization/catalog.go:847-885 | policy edits are kept when remembered, else reset to the last declaration of each target |
| `CatalogSeeding.EditIsLost` | authorization/catalog.go:277-337 | an input on which the second run of `Apply` overwrites an administrator's edit |
| `Evaluate.EvaluateRoles` | authorization/evaluate.go:53-98 | the public subject, the authenticated subject and then each mentioned role decide, in this order; a failing query aborts |
| `Evaluate.DecisionDependsOnRoleSet` | authorization/evaluate.go:53-98 | allow, reason and the set of matched roles depend only on the set of trimmed roles, and allow means some subject is allowed |
| `Evaluate.RoleQueryIsLocal` | authorization/evaluate.go:125-140 | grouping the one ordered query by role gives each role what a query for it alone would |
| `Evaluate.GroupByRole` | authorization/evaluate.go:134-140 | fails exactly on an invalid scope, else groups in query order |
| `Evaluate.EvaluateDataScopes` | authorization/evaluate.go:100-159 | super administrators get everything, no roles or no policies the tenant, others their rules; invalid scopes fail |
| `Evaluate.ScopesDependOnRoleSet` | authorization/evaluate.go:100-159 | order, repetition and padding of the role list do not matter |
| `Evaluate.RulesRunByRole` | authorization/evaluate.go:142-157 | rules ascend by role; each role's stretch is its policies in order or one fallback, and no other role has any |
| `Evaluate.RuleCount` | authorization/evaluate.go:142-157 | as many rules as visible policies plus roles without one |
| `Delivery.DeliveryLedger.Once` | pay/delivery.go:38-62 | one undisturbed call answers and leaves the table as specified, case by case |
| `Delivery.DeliveryLedger.IsDelivered` | pay/delivery.go:65-69 | true exactly for a delivered row of the key |
| `Delivery.AloneIsPath` | pay/delivery.go:38-62 | the undisturbed call is a run of the concurrent machine |
| `Delivery.StepKeepsInvariant` | pay/delivery.go:38-62 | every statement of every call keeps the ownership invariant |
| `Delivery.AtMostOnce` | pay/delivery.go:14-16 | in every interleaving with failures and crashes: per key one delivery in flight, one success, one true |
| `Delivery.TrueMeansDelivered` | pay/delivery.go:55-61 | a call that returned true delivered |
| `Delivery.OtherKeysUntouched` | pay/delivery.go:38-62 | a step touches only its own key and call |
| `Delivery.DeliveredStays` | pay/delivery.go:55-61 | a delivered row never changes again |
| `Delivery.AtRestRowMeansDelivered` | pay/delivery.go:43-61 | without crashes and errors, at rest a key has a row exactly when one delivery succeeded, only one did, and the row is delivered |
| `Delivery.AlreadyMeansDelivered` | pay/delivery.go:47-54 | with no release between conflict and re-read, (false, nil) means exactly delivered |
| `Delivery.AlreadyMeansDeliveredOrReleased` | pay/delivery.go:47-58 | in any window, (false, nil) means that the row is delivered or gone, and gone only if a holder's failed delivery released it |
| `Delivery.AlreadyWithoutDelivery` | pay/delivery.go:47-58 | a run in which (false, nil) is answered for an undelivered key |
| `Base64.DecodeEncode` | pay/xpay_push.go:108 | base64 decoding undoes encoding |
| `Base64.PaddedOnce` | pay/xpay_push.go:48-49 | a text plus one padding sign decodes to 3m + 2 bytes exactly when it is 4m + 3 digits |
| `PushCryptos.DecryptEncrypt` | pay/xpay_push.go:105-107 | CBC decryption undoes encryption on whole blocks |
| `PushCryptos.EncryptDecrypt` | pay/xpay_push.go:66-68 | CBC encryption undoes decryption, so every block-aligned text is some plaintext's ciphertext |
| `PushCryptos.NewPushCrypto` | pay/xpay_push.go:45-55 | a key is accepted exactly when it is 43 base64 digits, line breaks aside |
| `PushCryptos.Encrypt` | pay/xpay_push.go:89-109 | frames 16 random bytes, length, message and app ID, pads to 32, encrypts and encodes |
| `PushCryptos.Unframe` | pay/xpay_push.go:69-85 | stays in bounds and succeeds exactly when the plaintext splits |
| `PushCryptos.Decrypt` | pay/xpay_push.go:58-86 | for any text, succeeds exactly when it is whole blocks of base64 whose plaintext splits |
| `PushCryptos.SplitUnique` | pay/xpay_push.go:69-85 | a plaintext splits in at most one way |
| `PushCryptos.DecryptsToItself` | pay/xpay_push.go:58-109 | decrypting what was encrypted gives the message back exactly below 2^32 bytes |
| `PushCryptos.SignatureIgnoresOrder` | pay/xpay_push.go:29-34 | the signature does not depend on the order of its parts |
| `PushCryptos.VerifyURL` | pay/xpay_push.go:117-122 | echoes exactly under the right signature |
| `PushCryptos.Open` | pay/xpay_push.go:134-163 | hands out a message exactly when it is authentic |
| `PushCryptos.SealedOpens` | pay/xpay_push.go:134-163 | a sealed and signed message is opened as itself and nothing else |
| `XPay.TakeSession` | pay/xpay.go:115-128 | hands out the one key that authorizes the request: its own, or that of a login by the user it names; "wrong user" means exactly another user's login |
| `XPay.Discount` | pay/xpay.go:134-139 | succeeds exactly when a whole unit price exists; then quantity times unit price is the amount |
| `XPay.Prepay` | pay/xpay.go:94-145 | succeeds exactly for acceptable requests; quantity times the positive unit price is the amount, and what is sent is what an authorizing key signed |
| `XPay.ParsePayment` | pay/xpay.go:271-301 | accepts exactly its own environment; amount in int64, never an empty transaction number |
| `XPay.PushEchoesAmount` | pay/xpay.go:275-286 | a push that echoes price and quantity is worth the order's amount |
| `XPay.PollAfterPush` | pay/xpay.go:287-296 | after a push that delivered, polling the same order delivers again exactly when the push did not carry the platform's number |
| `XPay.WhenTotalsFit` | pay/xpay.go:109-111 | without overflow only a unit price is asked for; with it a payable amount is refused |
| `Refunds.Platform.Refund` | pay/xpay.go:191-223 | one undisturbed refund debits exactly the fee, or nothing |
| `Refunds.AloneIsPath` | pay/xpay.go:191-223 | the undisturbed refund is a run of the concurrent machine |
| `Refunds.StepKeepsInvariant` | pay/xpay.go:191-223 | every step keeps the books |
| `Refunds.RefundsConserve` | pay/xpay.go:191-223 | in every interleaving, left plus refunded is paid and left is never negative |
| `Refunds.DebitsAreAsked` | pay/xpay.go:206-222 | each call debits at most once and exactly its fee; "processing" means taken or already running |
| `Refunds.StaleCallsNeverDebit` | pay/xpay_client.go:31-39 | a call with an outdated left fee never debits, however late it arrives |
| `Refunds.OneReaderWins` | pay/xpay_client.go:193-204 | of two calls with the same left fee at most one debits |
| `Refunds.AppleOrdersKeepTheirFee` | pay/xpay.go:203-205 | Apple orders are never debited |
| `Gateway.TryKeys` | http/aigateway.go:502-535 | one round tries keys in turn; after each outcome the responses closed, keys cooled down and the error kept are those the specification of the round says |
| `Gateway.ForwardWithRetry` | http/aigateway.go:480-541 | the nested loops run the specified rounds; neither fallback for a missing error is reachable |
| `Gateway.AttemptsRemember` | http/aigateway.go:487-541 | a round that ends without a verdict leaves an error behind |
| `Gateway.ForwardingIsSafe` | http/aigateway.go:480-541 | at most 9 sends and 30 seconds, no key twice a round, cooldowns and closed responses exact, answers usable, "no usable key" only when nothing was sent |
| `Gateway.OneGoodUpstreamSuffices` | http/aigateway.go:487-536 | the first round tries min(3, eligible) distinct keys; one reliable upstream among at most three suffices, whatever the selector does later |
| `ChatRewrite.ExtractChatEnhancements` | http/aigateway_ext.go:45-89 | the enhancement fields are read out and removed, nothing else |
| `ChatRewrite.ApplyPromptTemplate` | http/aigateway_ext.go:92-125 | appends to a leading system message or inserts one |
| `ChatRewrite.ApplyConversationHistory` | http/aigateway_ext.go:128-155 | puts the recalled messages before the others |
| `ChatRewrite.InjectStreamOptions` | http/aigateway.go:458-474 | usage is asked for; every other stream option and every other field is the client's |
| `ChatRewrite.RewriteChat` | http/aigateway.go:118-165 | key by key, what is sent against what was received; only the named keys differ |
| `ChatRewrite.ClientMessagesAreSuffix` | http/aigateway_ext.go:92-155 | the client's messages end the list in order, all but the first unchanged; the first survives, at most with text appended, exactly when no template applies, it is no system message, or its content is missing or a string |
| `ChatRewrite.SystemPartsAreLost` | http/aigateway_ext.go:104-113 | an input whose system message is a list of parts: what is sent holds nothing of it |
| `ChatRewrite.ExtractLastUserMessage` | http/aigateway_ext.go:181-197 | the content of the last user message, if every message decodes and there is one; else nothing |
| `ChatRewrite.LastUserIsTheClients` | http/aigateway_ext.go:181-197 | the last user message sent is the client's if there is one, else the history's; what is sent decodes exactly when what came in does |
| `AiLifecycle.AIStore.CreateProvider` | http/admin_ai_lifecycle.go:205-225 | refuses for the first failing check, else stores the normalized provider |
| `AiLifecycle.AIStore.UpdateProvider` | http/admin_ai_lifecycle.go:227-256 | the same for an update of a mutable provider |
| `AiLifecycle.AIStore.DeleteProvider` | http/admin_ai_lifecycle.go:258-274 | deletes only a mutable provider without keys and routes |
| `AiLifecycle.AIStore.CreateKey` | http/admin_ai_lifecycle.go:287-314 | creates a key under a mutable provider with a free name |
| `AiLifecycle.AIStore.UpdateKey` | http/admin_ai_lifecycle.go:316-358 | renames, re-prioritizes or moves a mutable key |
| `AiLifecycle.AIStore.RotateKey` | http/admin_ai_lifecycle.go:360-376 | replaces the secret and ends the cooldown |
| `AiLifecycle.AIStore.DeleteKey` | http/admin_ai_lifecycle.go:378-390 | deletes a mutable key |
| `AiLifecycle.AIStore.CreateRoute` | http/admin_ai_lifecycle.go:403-426 | creates a route to a mutable provider with a free alias |
| `AiLifecycle.AIStore.UpdateRoute` | http/admin_ai_lifecycle.go:428-462 | changes a route between mutable providers |
| `AiLifecycle.AIStore.DeleteRoute` | http/admin_ai_lifecycle.go:464-473 | deletes a route of a mutable provider |
| `AiLifecycle.RequestKeepsInvariant` | http/admin_ai_lifecycle.go:205-473 | every operation keeps uniqueness and references |
| `AiLifecycle.RequestKeepsSystemRows` | http/admin_ai_lifecycle.go:161-174 | no operation changes, loses or adds a system row |
| `AiLifecycle.RunsKeepIntegrity` | http/admin_ai_lifecycle.go:205-473 | both over any run of operations |
| `AiLifecycle.UntrimmedTenantOrphansKey` | http/admin_ai_lifecycle.go:176-192 | why tenants must come trimmed: with an untrimmed one the function deletes a provider in use |
| `AuthCodes.AuthCodeStore.Issue` | http/oidc.go:64-82 | stores the code for 60 seconds and drops exactly the expired ones |
| `AuthCodes.AuthCodeStore.Consume` | http/oidc.go:84-94 | takes out exactly a present, unexpired, unconsumed code |
| `AuthCodes.AuthCodeStore.Authorize` | http/oidc.go:131-166 | issues only for an enabled client, a listed URI and a S256 challenge |
| `AuthCodes.AuthCodeStore.Redeem` | http/oidc.go:183-218 | grants exactly for the right client, code and verifier if the token can be signed, with what was recorded; a taken code is gone either way |
| `AuthCodes.AuthorizeIsStep` | http/oidc.go:131-166 | an undisturbed authorization is the machine's step, a refused one none |
| `AuthCodes.RedeemIsPath` | http/oidc.go:183-218 | an undisturbed redemption is taking and answering in the machine, with the same store and grant; a refused one is no step |
| `AuthCodes.StepKeepsInvariant` | http/oidc.go:64-94 | every locked section keeps the store's invariant |
| `AuthCodes.CodesAreOneTime` | http/oidc.go:64-94 | in every interleaving a code is redeemed at most once, in time, by its client, with its user, scope and nonce, and past PKCE |
| `AuthCodes.AnyURIRedeems` | http/oidc.go:183-218 | a run that authorizes with one redirect URI and redeems with any other |
| `AuthCodes.URIsAgreeExactlyForOne` | http/oidc.go:183-218 | redeemed codes always agree with the listed redirect URI a request names exactly for clients that list one |
| `RefreshTokens.TokenStore.Refresh` | http/oidc.go:249-292 | succeeds exactly for a known, permitted client and its own live, unexpired token, if an access token can be signed; rotates it, and changes nothing otherwise |
| `RefreshTokens.TokenStore.Revoke` | http/oidc.go:307-319 | revokes the token if there is one |
| `RefreshTokens.FamiliesStayLinear` | http/oidc.go:249-292 | in every sequential run a family has at most one unrevoked token and one party |
| `RefreshTokens.RefreshIsPath` | http/oidc.go:249-292 | the sequential refresh is its lookup, issue and revocation in a row |
| `RefreshTokens.FamiliesKeepTheirParty` | http/oidc.go:266-286 | in every run of interleaved handlers a family is for one client, principal, tenant and scope |
| `RefreshTokens.NextKeepsOneCurrent` | http/oidc.go:266-286 | a statement keeps families linear exactly when it is harmless: no successor issued beside a current one, no failed revocation that leaves a second |
| `RefreshTokens.LinearExactly` | http/oidc.go:266-286 | over every run of interleaved handlers, families are linear throughout exactly when every statement was harmless |
| `RefreshTokens.TwoHandlersFork` | http/oidc.go:266-286 | a run in which two handlers look up one token and its family ends with two live members |

## Left out

- HTTP binding, routing, JSON and XML text, audit, metrics, alerts, logging, moderation, the semantic cache, usage metering and error wording.
- Database failures, except in the delivery ledger, the refund protocol and the revocation that ends a token refresh; collations and column-length truncation.
- The enforcer that `Apply` reloads after rebuilding the rules of "0" and "-1" (authorization/catalog.go:269-271); the rebuild's own duplicate check is by method and path, which as text columns hold no NUL, so a set of rules stands for it.
- The counts `Apply` returns besides rules and added users: they are the lengths of the normalized lists.
- The parent columns of roles and menus keep catalog IDs even where the parent was found under another ID; nothing is claimed about resolving them.
- Timestamps, `KeyHint`, and the bytes of encrypted AI keys (the secret itself stands for them).
- `EvaluateRoles` takes the policy engine as a function; its result cache is not modelled. The store is taken to be initialized.
- `Upper`, `Lower` and `EqualFold` map only the characters whose image is an ASCII letter; other characters can appear in no accepted value.
- The choice of XML or JSON for push replies, the refund reason's truncation, `QueryRefund`, `TxnOfXPayOrder` and the WeChat JSAPI channel: direct mappings.
- Refunds that the platform accepts and later fails to pay out are not modelled, so the left fee never rises.
- A response body that was returned is closed by the caller; only the discarded ones are followed.
- Go's case-insensitive matching of JSON field names and its float64 numbers.
- Delivery exactly once per business order: the ledger keys on the channel's number (see `XPay.PollAfterPush`).
- Concurrent administration requests and concurrent `Apply` runs: one runs after another here, as the code takes no lock for them.
