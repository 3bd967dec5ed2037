# Marketplace control plane: a verified model

A multi-tenant marketplace lets individuals and organizations buy from vendors, install plugins and
run services. This project models the five state machines behind it and proves what they promise over
every run: orders and their refunds, the outbox and the provisioning it drives, identities and their
mirror in an identity provider, the access plane with organization upgrades, and the review of plugins
and listings.

Each component has the same layers:

- a module of values (`Orders`, `Outbox`, `Identity` over `Keycloak`, `Access`, `Plugins` over `Slugs`,
  `Listings`): a store of rows, and one function per call of the service, from the store to the store
  and the outcome, with every branch and refusal of the call;
- modules of laws (`OrderLaws`, `OutboxLaws`, `OutboxRuns`, `OutboxDeliveries`, `OutboxTurns`, `IdentityLaws`,
  `IdentityRuns`, `SessionRuns`, `AccessLaws`, `AccessRuns`, `AccessAdmins`, `AccessRemovals`, `AccessOwners`,
  `PluginLaws`, `ListingLaws`): an invariant of the store, split by table, a lemma for each call that keeps it, and
  theorems about every run of calls;
- modules that say, without the functions' own tests, exactly when each call is accepted and what it changes
  (`OrderCalls`, `SessionEnds`, `AccessCalls`, `PluginRisks`, `ListingCalls`), and what follows for every run;
- a class (`Commerce.CommerceService`, `OutboxProcessor.Processor`, `Keycloak.FakeKeycloakClient`,
  `IdentityServices.IdentityService`, `AccessServices.AccessService`, `PluginServices.PluginService`,
  `CatalogServices.CatalogService`) whose methods change rows step by step, in the order of the
  original's statements and with its loops, and are proved equal to the functions.

`OrgUpgrade` holds all layers of the upgrade pipeline in one module. `Errors`, `Text` and `Sums`
are shared.

A call either commits all its rows or none, so it is one step. The exceptions are kept: `password_reset`
commits twice around its call to the provider, authorization decisions are recorded in a transaction of
their own, and a rolled-back outbox pass or upgrade leaves its messages and realms behind. Calls run one
after another.

## What does not hold

Some promises fail, and for each the project shows an input on which it fails and proves when it holds.

- A login accepts the password last set and no other, until a reset loses the provider's answer:
  `SessionRuns.LostAnswerRun` and `IdentityRuns.SyncStep`.
- A registration that fails leaves no account at the provider, unless the provider's answer is lost, the
  worker dies or the deletion fails; the address is then taken, with no user, until the provider restarts:
  `IdentityRuns.StrandedRun`, `IdentityLaws.RegistrationExactly`, `IdentityRuns.OrphanStep` and
  `IdentityRuns.OrphanBlocks`.
- A registration that fails leaves no rows, unless the answer of its commit is lost; verification and login
  then go on as if it had succeeded: `IdentityLaws.RegistrationExactly` and
  `SessionRuns.RegistrationRoundTrip`.
- A secret is delivered once, unless a pass that dies before its commit has delivered it:
  `OutboxRuns.LostPassDeliversTwice` and `OutboxDeliveries.DeliveredTwice`.
- A tenant keeps an administrator through every call except a removal from its organization, which
  keeps one exactly when someone else is one too: `AccessAdmins.RemoveOrgStrands` and `AccessRuns.AdminStep`.
  A tenant that the operator opens for a user never has one, and every request in it is denied:
  `AccessRuns.AdminsKept` and `AccessRuns.ProvisionedIsShut`.
- A user removed from an organization stays out until invited again, unless an upgrade that the user asked
  for is still pending: the worker reads neither ownership nor membership, and makes the user the
  administrator of a new tenant: `AccessRemovals.RemovedReturns`, `AccessRemovals.RemovalHolds` and
  `AccessRemovals.OrgRemovalTakesEffect`.
- The guards of revocations and removals count expired bindings: `AccessAdmins.ExpiredAdminCounts` and
  `AccessAdmins.InForceStep`.
- One organization can be upgraded twice, through two requests under different slugs:
  `OrgUpgrade.UpgradedTwice`, `OrgUpgrade.UpgradedAgain` and `OrgUpgrade.UpgradesOf`. A request is never
  completed when the organization's first tenant already has the slug that the upgrade wants:
  `OrgUpgrade.BlockedForever`. Its realm is at the provider only until a restart:
  `OrgUpgrade.RealmAtProvider`.
- A completed request is marked failed when the answer from the workflow's start is lost:
  `OrgUpgrade.LostStartDisowns` and `OrgUpgrade.ExactlyOnce`.
- A listing rejected, resubmitted and approved is live, and the vendor is told that it is visible, with
  nothing for sale: `ListingLaws.RejectedStaysUnsold` and `ListingLaws.VisibleExactly`. Prices are outside the
  review: `ListingLaws.PriceIsNotReviewed`. Publishing breaks on a plugin with two approved versions, and
  the page of a product that ships to two cities does: `ListingLaws.PublishExactly` and
  `ListingLaws.CardPage`.
- A user whom the operator has blocked stays blocked, until a tenant administrator revokes the user's access; then
  the operator can reinstate the user: `SessionEnds.BlockHolds` and `SessionEnds.BlockUndone`.
- An archived product leaves the catalogue for good, unless a draft of it is published while review is required:
  that makes the product published again: `ListingCalls.ArchivedReturns` and `ListingCalls.ArchivedStep`.
- Every live listing is the one last approved, as long as no call that changes or publishes a listing is
  made with review switched off: `ListingLaws.SwitchedOffAndOn` and `ListingLaws.ReviewedExactly`.
- With several active operator organizations, a platform request that names one of them depends on which
  one the lookup finds: `AccessLaws.OperatorLookup`.

`docs/ROLES_AND_STATUSES.md` says that the suspension of a tenant is not implemented. The code implements
it, and the model follows the code.

## How the model reads the code

- Identifiers, subjects, one-time passwords and tokens come from a counter, `nextId`, or from parameters.
  Hashing is ideal: a digest verifies the value it was made from and no other. The signature of an access
  token is not modelled; theorems about tokens speak of those that the service issued.
- Clocks are parameters. An outbox pass reads its clock once for each row.
- Money is an integer number of minor units.
- The outcome of checks that belong to other components (`permitted`, `operator`, `valid`) is a parameter,
  and theorems hold for every value of it. Text functions are those of ASCII text.
- Failures of the provider and of the worker are parameters too (`Fault`, `Course`): a call refused without
  effect, or carried out with its answer lost; a death before the commit or after it. A restart of the provider
  forgets everything and may happen between any two calls.
- A query for one row that finds two raises an error in the original; the model refuses with `ServerError`
  where that can happen.
- Rows are map entries, so two variables never alias one row. Unique indexes are invariants that the calls
  are proved to keep, or, where a call relies on the database to refuse, a branch of the call.
- Fields that the services do not keep, and that only the theorems need, are said to be history where
  they are declared: the password last set, the tokens issued and accepted, the snapshot last approved,
  the number of lost passes. `IdentityRuns.HistoryRun` proves that the first two say what the calls of
  the run committed and replied.

## Model

| member | source | states |
|---|---|---|
| Commerce.CommerceService.AddLine | src/marketplace/application/commerce_service.py:377-414 | a line is added to the tenant's open cart, opened if there is none, unless a check refuses; the invariant is kept |
| Commerce.CommerceService.UpdateLine | src/marketplace/application/commerce_service.py:416-431 | the quantity of the line named, and of no other, is replaced |
| Commerce.CommerceService.RemoveLine | src/marketplace/application/commerce_service.py:433-442 | the line named, and no other, is gone |
| Commerce.CommerceService.CopyLines | src/marketplace/application/commerce_service.py:564-578 | the loop over cart lines yields the order's lines, their vendors without repetition, and whether one needs an address |
| Commerce.CommerceService.PlaceOrder | src/marketplace/application/commerce_service.py:524-606 | the order, its lines, one slice for each vendor and the closed cart, or a refusal and nothing |
| Commerce.CommerceService.VendorLineTotal | src/marketplace/application/commerce_service.py:900-909 | the loop sums exactly the lines of the vendor |
| Commerce.CommerceService.RollupOrderStatus | src/marketplace/application/commerce_service.py:868-898 | the status computed from flags over the slices is the rollup |
| Commerce.CommerceService.AdvanceVendorOrder | src/marketplace/application/commerce_service.py:713-798 | one slice moved along the table, its courier or refund set, and the order's status rolled up |
| Commerce.CommerceService.IssueVendorRejectRefund | src/marketplace/application/commerce_service.py:800-835 | a pending refund of a cancelled slice is issued, and only such a one |
| Commerce.CommerceService.CancelOrder | src/marketplace/application/commerce_service.py:837-866 | every slice is cancelled with its vendor's total to refund, only while all are placed |
| OrderLaws.StepKeeps | src/marketplace/application/commerce_service.py:377-866 | every call keeps the invariant of carts and orders, and changes orders and closed carts only forwards |
| OrderLaws.TotalsPartition | src/marketplace/application/commerce_service.py:900-909 | the totals of any set of vendors that covers the lines sum to the total of the lines |
| OrderLaws.MoneyConserved | src/marketplace/application/commerce_service.py:851-857 | vendor totals sum to the order's total; refunds never exceed it and equal it once the order is cancelled |
| OrderLaws.RollupMeaning | src/marketplace/application/commerce_service.py:882-898 | what each order status says about the slices, both ways, without the order of the tests |
| OrderLaws.RollupMovesUp | src/marketplace/application/commerce_service.py:868-898 | as slices advance the rollup only moves up, and its last two values are final |
| OrderLaws.StatusFollowsSlices | src/marketplace/application/commerce_service.py:857-898 | over any run an order's status is the rollup of its slices and only moves up, cancelled and delivered being final |
| OrderLaws.CheckoutIsPermanent | src/marketplace/application/commerce_service.py:540-592 | whatever happens later, the order keeps the lines it copied, its cart keeps its own, and slice vendors are exactly the line vendors |
| OrderLaws.OneOrderPerCart | src/marketplace/infrastructure/models.py:229-234 | over any run a tenant has one open cart at most, and a cart has one order exactly when it is checked out |
| OrderLaws.CheckoutCharges | src/marketplace/application/commerce_service.py:564-592 | a checkout charges what the cart costs at that moment, and every line's vendor gets a slice |
| OrderLaws.SecondCheckoutRefused | src/marketplace/application/commerce_service.py:541-546 | after a checkout, over any run in which no line is added for the tenant, checking out again is refused and changes nothing |
| OrderLaws.AdvancesAreBounded | src/marketplace/application/commerce_service.py:132-139 | an order with n slices takes at most 6n accepted advances over any run |
| OrderLaws.RefundIssuedOnce | src/marketplace/application/commerce_service.py:814-820 | a slice's refund is issued at most once over any run |
| OrderLaws.SliceProtocol | src/marketplace/application/commerce_service.py:746-773 | over any run a slice is cancelled only from placed, owes a refund exactly when cancelled and of its vendor's total, and has courier and tracking exactly when shipped or delivered |
| OrderCalls.CheckoutExactly | src/marketplace/application/commerce_service.py:536-553 | exactly when a checkout is accepted, and which refusal each failure gets: permission, one of the three methods, an open cart with lines, an address if something is shipped, dispatched or booked, and an active address of the tenant if one is given |
| OrderCalls.CheckoutMakes | src/marketplace/application/commerce_service.py:554-592 | the new order has the tenant, address and method given and copies the cart line for line, every vendor behind a line has a new slice, the cart is closed, and nothing else changes |
| OrderCalls.EveryOrder | src/marketplace/application/commerce_service.py:541-560 | every order of every run comes from a checkout accepted with that address and method; an order with something to send or to attend has an address |
| OrderCalls.AddLineExactly | src/marketplace/application/commerce_service.py:377-414 | exactly when a line is accepted; the cart then has that quantity of the offering, and every cart the rest as before |
| OrderCalls.EditLineExactly | src/marketplace/application/commerce_service.py:416-442 | exactly when a line is edited or removed; the cart then has the new quantity of its offering, or none, and every cart the rest as before |
| OrderCalls.CheckoutBuys | src/marketplace/application/commerce_service.py:540-592 | a checkout orders exactly the offerings and quantities of the cart, and leaves the tenant with none in a cart |
| OrderCalls.RouteOfSlice | src/marketplace/application/commerce_service.py:132-139 | over any run a slice takes one of three routes as far as its calls have brought it: to delivered with or without a delay, or to cancelled |
| OrderCalls.AdvanceExactly | src/marketplace/application/commerce_service.py:725-745 | an advance is accepted exactly if it is a step of such a route, from an owner of a vendor with a slice, with courier and tracking number if it ships |
| OrderCalls.CancelExactly | src/marketplace/application/commerce_service.py:837-857 | exactly when a buyer cancels, for an order of the tenant with all slices placed; each slice then owes its vendor's total, and no other order changes |
| OrderCalls.RefundExactly | src/marketplace/application/commerce_service.py:800-820 | exactly when a refund is issued, and that it changes that slice only |
| Text.StripExactly | src/marketplace/application/commerce_service.py:536-536 | stripping takes away blanks on both sides and leaves a text that neither begins nor ends with one |
| OutboxProcessor.Processor.ProcessPending | src/shared/infrastructure/outbox_processor.py:46-73 | one pass over the first pending rows, with the number processed |
| OutboxProcessor.Processor.ProcessRow | src/shared/infrastructure/outbox_processor.py:55-71 | one row handled and settled as processed, retried or dead, and no other row touched |
| OutboxProcessor.Processor.HandleRow | src/shared/infrastructure/outbox_processor.py:75-106 | the handler that the row's type names |
| OutboxProcessor.Processor.DeliverSecret | src/shared/infrastructure/outbox_processor.py:108-137 | the secret reaches the sink and is wiped, or the call raises, by cases |
| OutboxProcessor.Processor.HandleScan | src/marketplace/application/provision.py:14-22 | a pending scan passes |
| OutboxProcessor.Processor.HandleProvision | src/marketplace/application/provision.py:25-52 | a provisioning installation becomes active with an instance, by cases |
| OutboxProcessor.Processor.Install | src/marketplace/application/catalog_service.py:1853-1892 | a new installation and its event, unless a live one exists |
| OutboxProcessor.Processor.CancelSubscription | src/marketplace/application/commerce_service.py:1527-1538 | the active installation ends with its period |
| OutboxLaws.PassLowers | src/shared/infrastructure/outbox_processor.py:46-73 | each pass lowers the retries left over pending events by at least the smaller of its limit and their number |
| OutboxLaws.DrainedIn5n | src/shared/infrastructure/outbox_processor.py:46-73 | after 5n passes none of n pending events is pending, and no installation still waits |
| OutboxLaws.BatchSize | src/shared/infrastructure/outbox_processor.py:47-53 | a batch is as large as its limit and the pending rows allow |
| OutboxRuns.Reachable | src/shared/infrastructure/outbox_processor.py:46-137 | every run keeps the invariant: dead exactly at five retries, no secret-shaped key left in a processed payload |
| OutboxRuns.DeliveredAtMostOnce | src/shared/infrastructure/outbox_processor.py:117-137 | over any run a secret reaches the sink at most once more than the number of lost passes, never after expiry and for its own purpose; its plaintext is gone exactly when it is consumed |
| OutboxDeliveries.StepDelivers | src/shared/infrastructure/outbox_processor.py:117-137 | exactly which passes deliver a secret: those, committed or lost, that take up a row naming it while it is not consumed and has not expired at that row; and exactly which consume it |
| OutboxDeliveries.DeliveredExactly | src/shared/infrastructure/outbox_processor.py:46-137 | over any run a secret is delivered exactly as often as there are such passes |
| OutboxDeliveries.DeliveredTwice | src/shared/infrastructure/outbox_processor.py:54-73 | a secret is delivered more than once exactly when a lost pass delivers it before another pass does |
| OutboxRuns.LostPassDeliversTwice | src/shared/infrastructure/outbox_processor.py:54-73 | one lost pass, two deliveries |
| OutboxRuns.SecretEventNeverDies | src/shared/infrastructure/outbox_processor.py:68-71 | an event that names an existing secret of its purpose never goes dead |
| OutboxRuns.AttemptsRecorded | src/shared/infrastructure/outbox_processor.py:68-71 | no event is taken up more than five times by committed passes |
| OutboxRuns.InstancesMatch | src/marketplace/application/provision.py:25-52 | over any run an installation has one instance exactly when active or ending, and a tenant has one live installation of an offering at most |
| OutboxTurns.TurnExactly | src/shared/infrastructure/outbox_processor.py:46-71 | from the events before and after: a committed pass moves a pending event on exactly if fewer pending events than its limit stand before it (processed, with its time and without its secrets, or with one more retry), and leaves every other event as it is |
| OutboxTurns.TakenUp | src/shared/infrastructure/outbox_processor.py:46-53 | over any run, whatever is enqueued meanwhile, an event with n pending events before it has been taken up as soon as the committed passes may have taken up more than 5n rows |
| OutboxTurns.TurnComes | src/shared/infrastructure/outbox_processor.py:46-71 | so passes of at least some limit bring its turn after 5n / limit of them, and after 5(n + 1) it is pending no more |
| OutboxTurns.TurnAchieves | src/shared/infrastructure/outbox_processor.py:75-106 | a committed pass passes a scan and activates a waiting installation exactly if an event that names it has its turn |
| OutboxTurns.RetriesHandedOn | src/shared/infrastructure/outbox_processor.py:75-106 | a pass hands on exactly the password retries that its events ask for, in their order |
| OutboxTurns.NoSecretLeft | src/shared/infrastructure/outbox_processor.py:59-66 | over any run no event that a pass has processed keeps one of the four secret keys |
| OutboxTurns.InstallExactly | src/marketplace/application/catalog_service.py:1853-1892 | exactly when an installation is accepted, and that it is active with an instance or waits for its event |
| OutboxTurns.CancelExactly | src/marketplace/application/commerce_service.py:1527-1538 | exactly when a cancellation is accepted, and that it ends the active installation and changes nothing else |
| Keycloak.FakeKeycloakClient.CreateUser | src/identity/infrastructure/keycloak_client.py:24-33 | the account is added unless the address is taken |
| Keycloak.FakeKeycloakClient.DeleteUser | src/identity/infrastructure/keycloak_client.py:35-40 | the loop removes every account of the subject in the realm |
| Keycloak.FakeKeycloakClient.Authenticate | src/identity/infrastructure/keycloak_client.py:42-46 | the subject of a known address and password |
| Keycloak.FakeKeycloakClient.SetPassword | src/identity/infrastructure/keycloak_client.py:48-62 | the subject's account gets the password, or one is put back for the address |
| Keycloak.CreateDeleteRoundTrip | src/identity/infrastructure/keycloak_client.py:24-40 | a created account accepts its password and no other, and deleting it leaves no trace |
| Keycloak.SetPasswordHolds | src/identity/infrastructure/keycloak_client.py:42-62 | afterwards that password and no other authenticates to the subject, and no other account changes |
| IdentityServices.IdentityService.RegisterUser | src/identity/application/identity_service.py:80-193 | the rows of a registration; the provider's account is deleted again when a later step fails, and left when its answer is lost, the worker dies or the deletion fails |
| IdentityServices.IdentityService.VerifyEmail | src/identity/application/identity_service.py:195-219 | a pending user becomes active with the right code in time |
| IdentityServices.IdentityService.KeycloakSubjectForLogin | src/identity/application/identity_service.py:259-295 | the provider's subject, or the local hash's with the lost account put back |
| IdentityServices.IdentityService.Login | src/identity/application/identity_service.py:221-257 | a session for a right password, with each refusal |
| IdentityServices.IdentityService.IssueTokens | src/identity/application/identity_service.py:726-762 | a new session with the digest of its refresh token |
| IdentityServices.IdentityService.RefreshToken | src/identity/application/identity_service.py:297-367 | rotation, or revocation, or refusal, by cases |
| IdentityServices.IdentityService.LogoutSelf | src/identity/application/identity_service.py:369-375 | the actor's own session is revoked |
| IdentityServices.IdentityService.RevokePrincipalAccess | src/identity/application/identity_service.py:409-445 | user and principal are locked and every session is revoked |
| IdentityServices.IdentityService.SuspendUser | src/identity/application/platform_admin_users.py:109-119 | as a lock, but not of a blocked user |
| IdentityServices.IdentityService.ReinstateUser | src/identity/application/platform_admin_users.py:121-130 | user and principal are active again, unless blocked |
| IdentityServices.IdentityService.BlockUser | src/identity/application/platform_admin_users.py:132-140 | the user is blocked and every session is revoked |
| IdentityServices.IdentityService.RevokeUserSessions | src/identity/application/platform_admin_users.py:311-322 | the loop revokes exactly the user's active sessions and counts them |
| IdentityServices.IdentityService.RevokeTenantSessions | src/platform_ops/application/admin_ops_service.py:921-947 | the loop over users revokes exactly their active sessions, and its sum is their number |
| IdentityServices.IdentityService.PasswordResetRequest | src/identity/application/identity_service.py:545-582 | a reset token for an active user |
| IdentityServices.IdentityService.PasswordReset | src/identity/application/identity_service.py:584-663 | two commits around the provider's call: the token is spent and the sessions are revoked even when it fails |
| IdentityLaws.StepKeeps | src/identity/application/identity_service.py:80-790 | every call, refused, failed or completed, keeps the invariant of accounts, sessions and the provider |
| IdentityLaws.RegistrationExactly | src/identity/application/identity_service.py:97-193 | exactly when a registration completes and when it commits its rows; one that does not commit leaves every table as it was, and the provider too exactly unless the account was made and its answer lost, the worker died or the deletion was refused |
| IdentityLaws.RefreshExactly | src/identity/application/identity_service.py:302-351 | a session accepts its last token while active and unexpired; any other presentation revokes it; a revoked one never answers |
| IdentityRuns.HistoryRun | src/identity/application/identity_service.py:726-740 | the passwords and tokens that the invariant speaks of are those that the calls of the run set, issued and accepted |
| IdentityRuns.LoginExactly | src/identity/application/identity_service.py:259-295 | a login succeeds exactly for the password last set or the one at the provider, and afterwards the provider authenticates it to the credential's subject |
| IdentityRuns.SyncStep | src/identity/application/identity_service.py:630-658 | exactly which calls take the provider's password and the one last set apart or together |
| IdentityRuns.LoginAcceptsLastSet | src/identity/application/identity_service.py:221-295 | over any run without a lost reset answer, with restarts and refused calls, a login of an active user accepts the password last set and no other |
| IdentityRuns.OrphanStep | src/identity/application/identity_service.py:189-193 | exactly which calls make or end an account of nobody at the provider: registrations that strand theirs, and restarts |
| IdentityRuns.OrphanBlocks | src/identity/application/identity_service.py:97-100 | over any run without a restart such an account keeps its address from being registered; an address with neither user nor account can be |
| IdentityRuns.StrandedRun | src/identity/application/identity_service.py:97-193 | such a run from an empty database, for each way to strand an account |
| SessionRuns.LostAnswerLeavesTwoPasswords | src/identity/application/identity_service.py:630-652 | after a reset whose answer was lost exactly two passwords open a session |
| SessionRuns.LostAnswerRun | src/identity/application/identity_service.py:630-652 | such a run from an empty database |
| SessionRuns.StatusesAgree | src/identity/application/platform_admin_users.py:109-140 | over any run a user is active exactly when the principal is, and an active session belongs to an active user |
| SessionRuns.RevokedIsFinal | src/identity/application/identity_service.py:783-790 | a revoked session never refreshes or resolves again, over any run |
| SessionRuns.ShutOutIsFinal | src/identity/application/identity_service.py:425-435 | sessions ended by a lock, a suspension, a block, a reset or a tenant suspension stay dead over any run, reinstatements included |
| SessionRuns.RefreshChain | src/identity/application/identity_service.py:297-351 | over any run the tokens a session accepted are those it was issued, in order, once each, all but the last |
| SessionRuns.ReplayIsFatal | src/identity/application/identity_service.py:315-319 | presenting a token already rotated out kills the session for good |
| SessionRuns.LoginTokenFate | src/identity/application/identity_service.py:665-724 | over any run a login's access token resolves, to that user only, exactly until it or its session expires or the session is revoked |
| SessionRuns.RefreshTokenFate | src/identity/application/identity_service.py:665-724 | the same for the access token of a rotation |
| SessionRuns.ResetTokenOnce | src/identity/application/identity_service.py:819-835 | a reset token is refused in every state after it was spent |
| SessionRuns.ResetRoundTrip | src/identity/application/identity_service.py:545-663 | a requested reset goes through exactly within its time, ends the user's sessions, and leaves the new password as the only one that opens a session |
| SessionRuns.RegistrationRoundTrip | src/identity/application/identity_service.py:80-257 | a registration that commits takes the address; its user cannot log in before verification, which succeeds exactly with the code in time, and from then on exactly the registered password opens a session, even if the answer of the commit was lost and the account deleted |
| SessionEnds.EndsExactly | src/identity/application/identity_service.py:297-445 | exactly which calls end an active session; every other call leaves it active, and all but its refresh leave it as it is |
| SessionEnds.SessionLives | src/identity/application/identity_service.py:665-724 | over any run a session is good for its tokens exactly as long as none of those calls is made |
| SessionEnds.LogoutEnds | src/identity/application/identity_service.py:369-375 | a logout is accepted exactly for a session of the user who asks, ends it for good over any run, and changes nothing else |
| SessionEnds.AdminEnds | src/identity/application/identity_service.py:377-393 | the same of an administrator's revocation: exactly if permitted, of any session |
| SessionEnds.OthersEnd | src/identity/application/identity_service.py:395-407 | exactly the user's other sessions end for good, and every other session is as it was |
| SessionEnds.StatusExactly | src/identity/application/platform_admin_users.py:109-140 | exactly which calls change a user's status, and to what |
| SessionEnds.VerifyExactly | src/identity/application/identity_service.py:195-219 | exactly when a verification is accepted, and what it answers for a user who is active, locked or blocked |
| SessionEnds.PrincipalsMatch | src/identity/application/platform_admin_users.py:109-140 | over any run a principal is inactive, active or locked as its user is yet to be verified, active, or locked or blocked |
| SessionEnds.BlockHolds | src/identity/application/platform_admin_users.py:121-140 | over any run in which no tenant administrator revokes the user's access, a blocked user stays blocked: no login, suspension or reinstatement succeeds |
| SessionEnds.BlockUndone | src/identity/application/identity_service.py:425-428 | such a revocation makes the block a lock, and the user can be reinstated |
| AccessServices.AccessService.HasActiveTenantMembership | src/authz/infrastructure/repositories.py:39-68 | the query finds exactly the active membership of a user or service account |
| AccessServices.AccessService.FindActiveOperatorOrg | src/authz/infrastructure/repositories.py:75-94 | one of the active operator organizations of the user, if there is any |
| AccessServices.AccessService.HasExactPermissionGrant | src/authz/infrastructure/repositories.py:118-169 | the query finds a binding exactly when one gives the permission in this scope at this time |
| AccessServices.AccessService.AuthorizeTenant | src/authz/application/authorization_service.py:77-149 | the chain of tests of a tenant request |
| AccessServices.AccessService.AuthorizePlatform | src/authz/application/authorization_service.py:151-231 | the chain of tests of a platform request |
| AccessServices.AccessService.Authorize | src/authz/application/authorization_service.py:50-75 | the decision, with its row appended |
| AccessServices.AccessService.Record | src/authz/infrastructure/repositories.py:184-213 | the row that a decision leaves |
| AccessServices.AccessService.BootstrapIndividualOrg | src/identity/infrastructure/bootstrap_adapters.py:39-105 | the organization, tenant, roles, membership and binding of a registration |
| AccessServices.AccessService.Grant | src/authz/application/role_bindings.py:129-234 | a binding, after every check |
| AccessServices.AccessService.CountActiveTenantAdmins | src/authz/application/role_bindings.py:338-351 | the loop counts exactly the tenant's active administrator bindings |
| AccessServices.AccessService.Revoke | src/authz/application/role_bindings.py:236-296 | the binding revoked, unless it is counted as the last administrator's |
| AccessServices.AccessService.InviteTenantMember | src/tenant/application/members.py:64-165 | a membership and a binding, after every check |
| AccessServices.AccessService.IsLastAdmin | src/tenant/application/members.py:196-226 | whether the user's is the only active administrator binding |
| AccessServices.AccessService.RemoveTenantMember | src/tenant/application/members.py:167-252 | the membership ended and the user's bindings in the tenant revoked, unless the last administrator's |
| AccessServices.AccessService.RevokeBindings | src/tenant/application/members.py:228-241 | the loop revokes exactly the principal's active bindings in the tenants |
| AccessServices.AccessService.InviteOrgMember | src/tenant/application/members.py:254-320 | an invitation for a known address not yet in the organization |
| AccessServices.AccessService.AcceptOrgInvite | src/tenant/application/members.py:322-353 | an invited member joins |
| AccessServices.AccessService.RemoveOrgMember | src/tenant/application/members.py:355-430 | membership, tenant memberships and bindings of the user in the organization ended |
| AccessServices.AccessService.SuspendTenant | src/platform_ops/application/admin_ops_service.py:244-255 | tenant and organization suspended; the sessions that the call revokes are those of IdentityServices.IdentityService.RevokeTenantSessions |
| AccessServices.AccessService.ReinstateTenant | src/platform_ops/application/admin_ops_service.py:265-279 | tenant and organization active again |
| AccessServices.AccessService.ProvisionTenant | src/platform_ops/application/admin_ops_service.py:281-369 | an organization and a tenant for a known user without one, with neither roles nor bindings |
| AccessServices.AccessService.SubmitUpgrade | src/tenant/application/org_upgrade.py:53-83 | a request for the upgrade of an individual's organization by its owner, the only place where ownership is read |
| AccessServices.AccessService.AttemptUpgrade | src/tenant/application/org_upgrade.py:148-202 | an attempt at a request that is not completed: the organization active and upgraded, with a tenant for whoever asked |
| AccessLaws.AuthorizeExactly | src/authz/application/authorization_service.py:50-294 | the chain allows exactly what one predicate over principal, tenant, membership, permission and binding allows, and adds one row that says so |
| AccessLaws.ReasonIsTrue | src/authz/application/authorization_service.py:77-231 | the reason recorded is true of the state |
| AccessLaws.StepKeeps | src/tenant/application/members.py:64-430 | every call keeps: one active binding for a principal, role and tenant; a bound user is an active member; a member belongs to the organization or has had the tenant opened by an upgrade; every organization has an active owner |
| AccessLaws.InviteShape | src/tenant/application/members.py:129-142 | what an accepted invitation changes, and that its unchecked binding never meets the index of active bindings |
| AccessRuns.AuditStep | src/authz/infrastructure/repositories.py:184-213 | a call that asks for a decision adds one row, whatever becomes of it, and is forbidden exactly when the row is a denial |
| AccessRuns.OwnersKept | src/tenant/application/members.py:355-413 | over any run every organization keeps an active owner |
| AccessRuns.AdminStep | src/authz/application/role_bindings.py:257-261 | a tenant with an administrator keeps one through a call, except that a removal from the organization keeps one exactly when someone else is one |
| AccessRuns.AdminsKept | src/tenant/application/members.py:196-239 | over any run without a removal from an organization a tenant has an administrator's binding exactly when it has roles, which all but those opened by the operator have |
| AccessRuns.RemoveOrgAdmins | src/tenant/application/members.py:383-413 | what is left of the administrators after a removal from the organization |
| AccessAdmins.RemoveOrgStrands | src/tenant/application/members.py:355-413 | after a run from an empty database, a removal that leaves a tenant without any |
| AccessAdmins.InForceStep | src/authz/application/role_bindings.py:338-351 | after every call: a tenant has an administrator whose binding is in force exactly when the call makes one or one was in force and keeps its binding |
| AccessAdmins.ExpiredAdminCounts | src/authz/application/role_bindings.py:257-261 | after a run from an empty database, a revocation that leaves none in force |
| AccessRuns.RemovalTakesEffect | src/authz/infrastructure/repositories.py:39-68 | after a removal from a tenant every request of the user there is denied, over any run until an invitation back |
| AccessRemovals.OrgRemovalTakesEffect | src/tenant/application/members.py:362-413 | after a removal from an organization every request of the user in any of its tenants is denied, over any run until the organization invites the user again, except in a tenant opened by an upgrade that the user had pending; never in a tenant of that moment, and nowhere if nothing was pending |
| AccessRemovals.RemovalHolds | src/tenant/application/members.py:355-430 | some run without an invitation brings a removed user back exactly when the user has an upgrade of the organization pending at the removal |
| AccessRemovals.RemovedReturns | src/tenant/application/org_upgrade.py:148-202 | such a run from an empty database: the removed user administers a new tenant of the organization |
| AccessRuns.SuspensionTakesEffect | src/authz/application/authorization_service.py:96-99 | while a tenant is suspended every request in it is denied, over any run until it is reinstated |
| AccessRuns.ProvisionedIsShut | src/platform_ops/application/admin_ops_service.py:326-356 | in a tenant that the operator has opened every request of every principal is denied, over any run |
| AccessRuns.GrantAdds | src/authz/application/role_bindings.py:129-234 | after a grant a request is allowed exactly when it was before, or comes from the principal bound, in the tenant, for what the role allows, from the grant until it expires |
| AccessRuns.RevokeUndoesGrant | src/authz/application/role_bindings.py:236-296 | a grant whose binding is revoked again leaves every request answered as before |
| AccessRuns.InvitationGives | src/tenant/application/members.py:129-142 | an invited user may do in the tenant exactly what the role named allows, from the invitation on |
| AccessRuns.FounderAdministers | src/identity/infrastructure/bootstrap_adapters.py:61-98 | a registered user administers the tenant from the activation of the account, and not before |
| AccessOwners.InviteOrgExactly | src/tenant/application/members.py:262-300 | exactly when an invitation is accepted; it leaves the row of the user with that address invited in that role, whatever it was, and changes nothing else |
| AccessOwners.RowStep | src/tenant/application/members.py:254-413 | exactly which calls change a user's row in an organization, and how: invitations, acceptances and removals |
| AccessOwners.OwnerStep | src/tenant/application/members.py:322-413 | after a call a user owns an organization exactly if the call accepts an invitation to own it, or the user did before and is not removed |
| AccessOwners.OwnerComes | src/tenant/application/members.py:286-342 | over any run a user comes to own an organization only by accepting an invitation to own it, made by an owner and the last that the user had |
| AccessOwners.OwnersExplained | src/tenant/application/members.py:286-342 | in every reachable state each owner has founded the organization or come to own it so |
| AccessOwners.FoundedStep | src/identity/infrastructure/bootstrap_adapters.py:39-60 | a new organization is active, has the one owner who founded it and no other member, and is an individual's exactly if it comes with a registration |
| AccessOwners.CatalogExactly | src/authz/domain/catalog.py:20-48 | which permissions there are, and that exactly those named so are of the platform's scope |
| AccessOwners.InvitedMay | src/authz/domain/catalog.py:50-85 | in every reachable state an invitation to a tenant is in one of three roles, and gives exactly what the role is for: everything, resources and vendors, or reading all but the audit log |
| AccessCalls.ReasonIsFirst | src/authz/application/authorization_service.py:50-231 | the reason recorded is the first, in the order of the tests, that is true of the state |
| AccessCalls.RowExactly | src/authz/application/authorization_service.py:233-294 | the scope, tenant and operator that a decision records, from the request, the reason and the operator found |
| AccessCalls.GrantExactly | src/authz/application/role_bindings.py:129-234 | exactly when a grant is accepted, by who administers, which role, and who may hold it |
| AccessCalls.RevokeExactly | src/authz/application/role_bindings.py:236-296 | exactly when a revocation is accepted: of an active binding, unless it is the only one to the administrator role |
| AccessCalls.InviteTenantExactly | src/tenant/application/members.py:64-142 | exactly when a user is invited to a tenant |
| AccessCalls.RemoveTenantExactly | src/tenant/application/members.py:167-241 | exactly when a member is removed: unless nobody else holds the administrator role; and that the membership and the bindings there end, and nothing else |
| AccessCalls.RemoveOrgExactly | src/tenant/application/members.py:355-413 | exactly when a member is removed from an organization, and that the row, the memberships and the bindings in its tenants end, and nothing else |
| AccessCalls.SubmitUpgradeExactly | src/tenant/application/org_upgrade.py:53-83 | exactly when an upgrade may be asked for |
| AccessCalls.AttemptExactly | src/tenant/application/org_upgrade.py:148-202 | exactly when an attempt at an upgrade succeeds, and what the organization and its new tenant are then |
| AccessCalls.ProvisionExactly | src/platform_ops/application/admin_ops_service.py:281-369 | exactly when the operator opens a tenant for a known user, and for whom nothing is left to open |
| AccessCalls.SwitchExactly | src/platform_ops/application/admin_ops_service.py:244-279 | exactly when a tenant is suspended or reinstated, and that tenant and organization are switched together |
| OrgUpgrade.OrgUpgradeService.RunForRequest | src/tenant/application/org_upgrade.py:148-202 | one attempt at a request, under every fault |
| OrgUpgrade.OrgUpgradeService.RunPipeline | src/tenant/application/org_upgrade.py:261-347 | the rows of the pipeline, or all of them rolled back and the provider's realm left |
| OrgUpgrade.OrgUpgradeService.MarkAsFailed | src/tenant/application/org_upgrade.py:204-236 | the request is failed, put back if a rollback has taken it away, and nothing else changes |
| OrgUpgrade.OrgUpgradeService.AssertSlugAvailable | src/tenant/application/org_upgrade.py:404-424 | the loops find a clash exactly when another organization or a request that has not failed has the slug |
| OrgUpgrade.OrgUpgradeService.SubmitToWorkflow | src/tenant/application/org_upgrade.py:83-128 | a submission committed before its workflow starts, failed if that does not |
| OrgUpgrade.OrgUpgradeService.SubmitAndRun | src/tenant/application/org_upgrade.py:130-146 | a submission and its pipeline in one transaction, under every fault |
| OrgUpgrade.StepKeeps | src/tenant/application/org_upgrade.py:53-347 | every submission and attempt keeps the unique indexes, the rows that a registration comes with, one membership and one binding for each tenant, and their counts |
| OrgUpgrade.AttemptExactly | src/tenant/application/org_upgrade.py:148-202 | an attempt completes a request exactly when provider and worker hold out and its slugs are free, and leaves a completed one alone |
| OrgUpgrade.AtMostOnce | src/workflows/org_upgrade.py:35-45 | for any schedule of outages, crashes, restarts and retries a request registers at most once, with its realm's row, and a tenant of its own that has one member, the requester, and one administrator's binding; over the run there is one tenant, membership and binding for every organization founded and every registration; the realm is at the provider exactly if it was created since the last restart |
| OrgUpgrade.RealmAtProvider | src/tenant/application/org_upgrade.py:270-272 | over any run a realm is at the provider exactly if it is the platform's or an attempt has created it since the provider last restarted |
| OrgUpgrade.RegisteredCreated | src/tenant/application/org_upgrade.py:270-272 | a request registers only with an attempt that creates its realm, which stays as long as the provider does not restart |
| OrgUpgrade.ExactlyOnce | src/tenant/application/org_upgrade.py:152-202 | for any schedule a request is completed exactly when it has registered, unless the answer from its own start was lost after it completed; then it stays registered and failed |
| OrgUpgrade.UpgradedAgain | src/tenant/application/org_upgrade.py:148-202 | exactly which calls upgrade an organization that has been upgraded: attempts at another request of it that hold out and clash with no slug |
| OrgUpgrade.UpgradesOf | src/tenant/application/org_upgrade.py:261-347 | over any run an organization is an individual's exactly until it is upgraded, and is upgraded more than once exactly when two of its requests are |
| OrgUpgrade.RealmOwner | src/tenant/application/org_upgrade.py:270-288 | over any run a registered organization owns the realm row of its slug exactly when the slug is not the platform's and it was the first to register under it |
| OrgUpgrade.BlockedForever | src/tenant/infrastructure/models.py:50-55 | a request whose tenant slug its organization already has is never completed, over any run |
| OrgUpgrade.UpgradedTwice | src/tenant/application/org_upgrade.py:382-424 | two requests upgrade one organization |
| Slugs.FreeSlug | src/marketplace/application/plugin_service.py:393-406 | the loop ends within one more probe than there are taken slugs, with the smallest free suffix |
| Slugs.SlugPattern | src/marketplace/application/plugin_service.py:26 | the pattern, as words joined by hyphens, and as a condition on characters, are the same |
| Slugs.NormalizedWords | src/marketplace/application/plugin_service.py:393-396 | the derived slug is the words of the lower-case name joined by hyphens, empty when there are none and a slug otherwise |
| Slugs.NormalizedSlug | src/marketplace/application/plugin_service.py:393-394 | a slug is left as it is |
| Slugs.NormalizedTwice | src/marketplace/application/plugin_service.py:393-394 | deriving a slug twice is deriving it once |
| Slugs.CandidateSlug | src/marketplace/application/plugin_service.py:405-406 | a slug with a suffix is a slug |
| Slugs.CandidatesDiffer | src/marketplace/application/plugin_service.py:405-406 | different suffixes give different slugs |
| Plugins.RiskIsMaximum | src/marketplace/application/plugin_service.py:43-49 | the risk of a list of scopes is the largest of their own |
| Plugins.RiskOrderless | src/marketplace/application/plugin_service.py:43-49 | order and repetition do not matter, and more scopes are never less risky |
| PluginServices.PluginService.SubmitPluginBundle | src/marketplace/application/plugin_service.py:358-471 | a plugin under a free slug, or an existing one, with a new version; a refusal leaves nothing |
| PluginServices.PluginService.BundlePlugin | src/marketplace/application/plugin_service.py:383-419 | the plugin of a bundle |
| PluginServices.PluginService.DeclareCapabilities | src/marketplace/application/plugin_service.py:473-531 | the stripped, distinct scopes replace the old ones, with their risk level, until a decision |
| PluginServices.PluginService.ClaimVersion | src/marketplace/application/plugin_service.py:922-941 | an undecided version is claimed, unless by someone else |
| PluginServices.PluginService.RequestChanges | src/marketplace/application/plugin_service.py:943-971 | changes are requested of a pending version, by its claimer if it has one |
| PluginServices.PluginService.DecideVersion | src/marketplace/application/plugin_service.py:977-1021 | the decision, by the claimer if there is one, and the plugin's activation |
| PluginLaws.StepKeeps | src/marketplace/application/plugin_service.py:248-1021 | every call keeps distinct slugs, distinct version numbers, stored risks and claims |
| PluginLaws.SlugsAndRisks | src/marketplace/application/plugin_service.py:489-519 | over any run slugs are distinct and match the pattern, and every stored risk level is that of the scopes declared now |
| PluginLaws.DecisionIsFinal | src/marketplace/application/plugin_service.py:489-490 | over any run a decided version keeps its decision, risk and scopes |
| PluginLaws.ClaimDecides | src/marketplace/application/plugin_service.py:929-1001 | over any run a claim never changes hands, and a claimed version is decided by its claimer or by nobody |
| PluginRisks.StoredRisk | src/marketplace/application/plugin_service.py:28-49 | over any run the stored risk of every version is high exactly if one of its scopes says one of six words, whatever the case, medium exactly if none does and one says one of six others, low otherwise |
| PluginRisks.DeclareExactly | src/marketplace/application/plugin_service.py:473-531 | exactly when a declaration is accepted; the stripped scopes replace the old ones in their order, with that risk, and nothing else changes |
| PluginRisks.ActiveExactly | src/marketplace/application/plugin_service.py:998-1003 | over any run a vendor's plugin is active exactly if one of its versions has been approved, and a draft until then |
| PluginRisks.ReviewExactly | src/marketplace/application/plugin_service.py:922-1001 | exactly when a version is claimed, sent back or decided |
| PluginRisks.DecisionMakes | src/marketplace/application/plugin_service.py:988-1003 | a decision is written with who made it; an approval activates a draft, a rejection nothing |
| PluginRisks.RegisterExactly | src/marketplace/application/plugin_service.py:248-293 | exactly when a plugin is registered, as a draft under a slug of its own |
| PluginRisks.SubmitExactly | src/marketplace/application/plugin_service.py:295-356 | exactly when a version is accepted, and what is added |
| PluginRisks.BundleExactly | src/marketplace/application/plugin_service.py:375-471 | exactly when a bundle is accepted, and that it adds a version to the plugin named or to a new one under a slug of its own |
| PluginRisks.StandardExactly | src/marketplace/application/plugin_service.py:1076-1163 | exactly when the operator's own plugin is created, with an approved version |
| PluginRisks.DeletionExactly | src/marketplace/application/plugin_service.py:1217-1253 | exactly when it is deleted, and that its versions go with it and no others |
| CatalogServices.CatalogService.SubmitProductListing | src/marketplace/application/catalog_service.py:670-818 | the product, its content, cities and standard offering as submitted, waiting for review |
| CatalogServices.CatalogService.ResubmitProduct | src/marketplace/application/catalog_service.py:820-836 | a rejected product waits for review again |
| CatalogServices.CatalogService.UpdateProduct | src/marketplace/application/catalog_service.py:1123-1176 | an edit, and the way back to review when it changes what a listing shows |
| CatalogServices.CatalogService.ArchiveProduct | src/marketplace/application/catalog_service.py:1218-1246 | the product archived and its published offerings taken off sale |
| CatalogServices.CatalogService.DeleteServiceCity | src/marketplace/application/catalog_service.py:527-563 | the city taken from every product, unless its warehouse has stock |
| CatalogServices.CatalogService.PublishOffering | src/marketplace/application/catalog_service.py:1469-1522 | the offering published, or its product queued for review |
| CatalogServices.CatalogService.ApproveProduct | src/marketplace/application/catalog_service.py:2044-2084 | the product live and its drafts published |
| CatalogServices.CatalogService.RejectProduct | src/marketplace/application/catalog_service.py:2086-2130 | the product rejected and its offerings taken off sale |
| CatalogServices.CatalogService.MoveOfferings | src/marketplace/application/catalog_service.py:1158-1167 | the loop moves exactly the product's offerings in the given states, and counts them |
| CatalogServices.CatalogService.Catalog | src/marketplace/application/catalog_service.py:1543-1557 | the cards are exactly those that pass the filter no request can switch off |
| ListingLaws.StepKeeps | src/marketplace/application/catalog_service.py:323-2130 | every call keeps that a published offering's product has been submitted to review |
| ListingLaws.ReviewStep | src/marketplace/application/catalog_service.py:1136-1167 | while review is required every call keeps that a live product shows what was last approved |
| ListingLaws.CatalogIsReviewed | src/marketplace/application/catalog_service.py:1543-1550 | while review is required throughout, every card is of a live product whose listing is the one last approved |
| ListingLaws.SubmittedIsSold | src/marketplace/application/catalog_service.py:670-818 | a submitted listing has no card before its approval; approved, its standard offering is on sale under the name and category and at the price submitted |
| ListingLaws.ApprovalSells | src/marketplace/application/catalog_service.py:2066-2076 | an approval shows exactly the offerings of the product that were not taken off sale, if it is not archived and has the service cities it needs, and changes no other card |
| ListingLaws.ReviewedExactly | src/marketplace/application/catalog_service.py:1136-1167 | exactly which calls keep that every live listing shows what was last approved: all but, with review off, an edit of what a live listing shows and the publication of a product that does not show what was last approved |
| ListingLaws.SwitchedOffAndOn | src/marketplace/application/catalog_service.py:1506-1509 | a run from an empty database after which review is required and a card shows what nobody has approved |
| ListingLaws.RejectedStaysUnsold | src/marketplace/application/catalog_service.py:2066-2076 | a listing rejected, resubmitted and approved is live without a card |
| ListingLaws.VisibleExactly | src/marketplace/application/catalog_service.py:2317-2332 | while review is required a product has a card exactly when its vendor is told that it is visible and it has a published offering |
| ListingLaws.CardPage | src/marketplace/application/catalog_service.py:1748-1766 | a product has a card exactly when it has a published offering and a page; the page opens unless the product ships to more than one city, and breaks if it does |
| ListingLaws.DeletedCity | src/marketplace/application/catalog_service.py:545-547 | deleting a city takes away exactly the cards of products that shipped to no other, and adds none |
| ListingLaws.PublishExactly | src/marketplace/application/catalog_service.py:1469-1522 | exactly when publishing succeeds, queues for review, or breaks on two approved versions |
| ListingCalls.ArchivedStep | src/marketplace/application/catalog_service.py:1489-1492 | an archived product is brought back by exactly one call: the publication of a draft of it, while review is required and the product is not live |
| ListingCalls.ArchivedStays | src/marketplace/application/catalog_service.py:1218-1246 | over any run without that call an archived product stays archived, and has no card |
| ListingCalls.ArchivedReturns | src/marketplace/application/catalog_service.py:1489-1492 | a run from an empty database after which an archived product is on sale |
| ListingCalls.ArchiveExactly | src/marketplace/application/catalog_service.py:1218-1246 | exactly when a product is archived; its cards go, its published offerings are off sale for good, and nothing else changes |
| ListingCalls.UpdateExactly | src/marketplace/application/catalog_service.py:1123-1167 | exactly when an edit is accepted, when it sends the listing back to review, and that its published offerings are drafts then and untouched otherwise |
| ListingCalls.EditReturns | src/marketplace/application/catalog_service.py:1147-1167 | a listing sent back has no card until its approval, which gives back exactly what was for sale before the edit |
| ListingCalls.SubmitExactly | src/marketplace/application/catalog_service.py:670-752 | exactly when a listing is accepted for review |
| ListingCalls.VerdictExactly | src/marketplace/application/catalog_service.py:2044-2110 | exactly when a product is approved or rejected |
| ListingCalls.RejectionMakes | src/marketplace/application/catalog_service.py:2086-2122 | a rejection takes every offering of the product off sale, drafts too, and changes no other card |
| ListingCalls.ResubmitExactly | src/marketplace/application/catalog_service.py:820-836 | exactly when a rejected product waits for review again |
| ListingCalls.SuspensionExactly | src/marketplace/application/catalog_service.py:1428-1467 | exactly when a vendor is suspended; the cards of its products go, stay away after its reinstatement, and no other card changes |
| ListingCalls.ReinstatementExactly | src/marketplace/application/catalog_service.py:1411-1426 | exactly when a vendor is reinstated |
| ListingCalls.CreateExactly | src/marketplace/application/catalog_service.py:323-385 | exactly when a product is created, as a draft that nobody has submitted |
| ListingCalls.OfferingExactly | src/marketplace/application/catalog_service.py:1248-1298 | exactly when an offering is created, as a draft that shows nothing |
| ListingCalls.PriceExactly | src/marketplace/application/catalog_service.py:1178-1200 | exactly when a price is set, and that nothing else changes |
| ListingCalls.CitiesExactly | src/marketplace/application/catalog_service.py:527-563 | exactly when cities are set and when one is deleted, which takes it from every product |

## Left out

- Concurrent transactions: the calls read and then write without locks, and the model runs them one after another.
- Vendor total sums are exact here; the original adds floating-point numbers.
- Orders without slice rows, from before those rows existed: the theorems are about orders made by `place_order`.
- Returns, reviews, ratings, wishlists, addresses beyond their existence, warehouses, stock, payouts, dashboards and listings of rows: reads and edits without a hard property.
- The cancellation of a single order line in `cancel_subscription`: only its branch for installations is modelled.
- The real identity provider, its second factor, the encoding of access tokens, and the workflow engine beyond its retries.
- The audit rows of business events, except those of an upgraded organization; those of authorization decisions are modelled in full.
- The roles of the platform and their bindings: authorization decides about them in any state, but the calls that make them are not part of the runs.
- The credentials of service accounts, projects, and the grant's free-text justification.
- OrgUpgrade.StepKeeps: the uniqueness of a realm's issuer is not modelled.
- AccessRemovals.RemovalHolds: the workflow gives up after five attempts; here a pending request may be attempted at any time.
- AccessServices.AccessService.SuspendTenant: the sessions that the same transaction revokes are in the identity model.
- The calls that bind roles to service accounts (`src/identity/application/service_accounts.py:220`, `:290`) are runs of `DoAddService` and `DoGrant` without an expiry; the scope check that they lack never fails, as the roles of a tenant are of tenant scope.
- Slugs.NormalizedWords: lower-casing and stripping are those of ASCII text.
- ListingLaws.CatalogIsReviewed: the filters that a request adds (category, text, vendor, price, place, stock) only take cards away and are not modelled.
- CatalogServices.CatalogService.SubmitProductListing: the checks of single fields are one parameter, and a content document has the fields that a listing shows and the rest as one text.
- IdentityLaws.StepKeeps: the retry event that a failed reset enqueues is part of the outbox model only.
- PluginLaws.StepKeeps: activations of standard plugins by vendors are not modelled.
