# Verified model of the notebook platform's stateful core

A Dafny model of six parts of the platform, each with proofs about every run or every input.

- **Gateway rate limiter** (`RateLimit`): the visitor table as code (`Limiter`), as steps on values, and as a
  specification over the full history of admissions, which the code never stores.
- **Schema migrator** (`Migrator`, `MigratorRuns`, `MigratorMain`): the order of the work, any number of migrators
  that interleave and crash, and one run with its loop.
- **Notebook event hub** (`Channel`, `Hub`, `HubRuns`, `HubInterleaving`, `HubOffers`, `Stream`): bounded channels, the
  registry updated in place, whole runs of it with every subscriber, the same registry under its lock step by step, what
  each publish sends, and the stream loop that serves one subscriber while others use the hub.
- **Payments, subscriptions and plans** (`Billing`, `BillingPayments`, `BillingPlans`, `BillingService`): two services
  over shared rows, with every repository or remote call failing, succeeding, or succeeding unheard.
- **Login through a provider** (`OAuth`, `OAuthSafety`, `OAuthService`, `Usernames`, `Utf8`): one-time states and
  PKCE, account linking, username allocation.
- **Codecs and uploads** (`JsonLexer`, `JsonText`, `Documents`, `DocumentRoundTrip`, `Decoders`, `Encoders`, `Json`,
  `Uploads`): the generated JSON code over a token stream, and the chunked uploads with their receiver.

Where the source updates state in place the model has classes and loops, and their contracts equate them with
functions on values; the theorems about whole runs are lemmas about those functions. `dafny verify dfyconfig.toml`
checks everything.

## Where the code does not do what its names or design suggest

Each of these is stated as a lemma, with the exact condition where there is one.

- The sliding-window bound holds, and the code does what its history calls for, iff `window*2` fits an int64 (or nobody
  is let in): beyond that the product is negative and every tick forgets everyone (`RateLimit.BoundHoldsExactly`,
  `RateLimit.RefinesExactly`).
- A free user is frozen when the stored total reaches 10740 seconds, not the 10800 of the limit: the check adds a beat
  that the total already holds (`BillingPlans.FreeUntilTheLimit`).
- A paid payment has its subscription row iff, at the step that marked it paid, MarkPaid answered, the plan list was read
  and the insert took effect (`BillingPayments.ActivatedIffPayingStepWorked`,
  `BillingPayments.SucceededIffActivatedOnce`). Its payer gets the plan iff, besides, the insert answered and SetUserPlan
  took effect (`BillingPayments.GrantedIffPayingStepWorked`). What was missed is never made up: once a payment is paid,
  its webhooks and polls do nothing (`BillingPayments.PaidEventsDoNothing`,
  `BillingPayments.MissedActivationIsNeverMadeUp`, `BillingPayments.GrantCanBeMissed`).
- The plan ends with the user's greatest expiry, not the latest activation's. The two agree in every run iff both paid
  plans last equally long (`BillingPlans.LatestActivationCountsExactly`).
- An external identity keeps its user for good iff that user is verified (`OAuthSafety.StableIffVerified`). A new user is
  unverified when the provider gives an address it does not vouch for, with no call failing
  (`OAuthSafety.UnvouchedUserIsUnverified`), or when SetVerified fails; the cleanup of unverified users then deletes user
  and link, and the same identity can be answered with somebody else (`OAuthSafety.SecondUserArises`).
- Two callbacks for one identity that both read before either writes return different users iff they found different
  things and the second found an account by address (`OAuthSafety.RacingCallbacksDisagree`, `OAuthSafety.RaceArises`).
- Cutting a username at 32 bytes can split a rune: sanitizing is idempotent iff the first byte cut away, if any, starts a
  rune (`Usernames.IdempotentExactly`).
- Decoding null into a map keeps the map that was there: statistics round-trip iff each of their nil maps meets a target
  that holds none (`DocumentRoundTrip.StaleCountsStay`).

## Assumptions

- Handlers of the payment, auth and login services are atomic steps; the code takes no lock across their calls, and
  `OAuthSafety.RacingCallbacksDisagree` splits the one place where that shows. The hub and the migrators are modelled
  at the grain of single operations.
- A provider is configured under its own name, as internal/auth/app/app.go:105-122 does; only `OAuthSafety.StableIffVerified`
  and its witness need it.
- The clock never goes back. Provider statuses `succeeded` and `canceled` are permanent. Provider payment ids and the
  pair (provider, provider id) are unique. The plan table does not change.
- Instants are nanoseconds; durations are int64 and wrap or saturate as Go's do.
- SHA-256 in base64url, the Unicode tables and the time parser are parameters. Of the Unicode tables it is only assumed
  that the replacement character is not a letter or digit, and that no space is a letter, a digit or an underscore.

## Model

| member | source | states |
|---|---|---|
| `RateLimit.SlidingWindowBound` | internal/middleware/ratelimit.go:30-68 | In every run, with cleanup ticks anywhere, one address passes at most `k * maxRequests` times in any half-open interval of length `k * window`, although only a counter and one timestamp are stored; needs `window*2` to fit an int64 |
| `RateLimit.RefinesHistorySpec` | internal/middleware/ratelimit.go:31-35 | The admissions of an address are those of a specification that looks at its own request history alone: ticks and other addresses never matter; a stored counter is `maxRequests` minus the length of the current burst |
| `RateLimit.DecisionIsSpec` | internal/middleware/ratelimit.go:55-67 | The next request passes iff the limit is positive and the last admission is a window old or absent, or the burst of admissions less than a window apart is shorter than the limit |
| `RateLimit.RejectionsAreInvisible` | internal/middleware/ratelimit.go:61-65 | Deleting a rejected request from a history changes no later decision |
| `RateLimit.SpecIsPaced` | internal/middleware/ratelimit.go:57-67 | Whatever is requested, the admissions are sorted, no burst exceeds the limit, and any limit-plus-one consecutive admissions span a window |
| `RateLimit.RunRemembers` | internal/middleware/ratelimit.go:48-67 | After every run the table remembers what the history calls for, whether or not a tick has dropped the entry |
| `RateLimit.SweepKeepsMemory` | internal/middleware/ratelimit.go:29-37 | A tick drops an entry only when forgetting it decides nothing |
| `RateLimit.OverflowBreaksBound` | internal/middleware/ratelimit.go:32-32 | When `window*2` wraps, a concrete run with one tick lets an address pass once more than the limit within a window |
| `RateLimit.BoundHoldsExactly` | internal/middleware/ratelimit.go:18-68 | The bound holds in every run iff `window*2` fits an int64 or the limit lets nobody in |
| `RateLimit.RefinesExactly` | internal/middleware/ratelimit.go:18-68 | In every run every address's admissions are those its own history calls for, iff `window*2` fits an int64 or the limit lets nobody in |
| `RateLimit.Limiter.Admit` | internal/middleware/ratelimit.go:48-68 | The in-place request section answers what the full history calls for and extends that history by exactly this decision |
| `RateLimit.Limiter.Cleanup` | internal/middleware/ratelimit.go:29-37 | The in-place sweep changes nobody's admissions and adds no visitor |
| `MigratorRuns.HistoryIsCanonicalPrefix` | cmd/migrator/main.go:37-112 | Any number of migrators, interleaved and crashing between any two database operations: the committed history only grows, is always a prefix of the canonical one, and holds no version twice, although check and commit are separate |
| `MigratorRuns.CompletionIsFinal` | cmd/migrator/main.go:37-59 | Once one migrator completes, after any failures before it, the history is the whole canonical one and nothing later changes it |
| `MigratorRuns.LeftAloneCompletes` | cmd/migrator/main.go:37-59 | A migrator that stands before any check, in any state, completes when left alone, if every name parses |
| `MigratorRuns.FreshMigratorCompletes` | cmd/migrator/main.go:16-60 | So does a migrator launched at any time, whatever became of all others |
| `MigratorRuns.InsideTransactionCompletesExactly` | cmd/migrator/main.go:90-112 | A migrator already inside its transaction, left alone, completes iff nobody has recorded the version since its check; otherwise the primary key stops it |
| `MigratorRuns.NextKeepsInv` | cmd/migrator/main.go:78-112 | Every single step of every migrator keeps the history a canonical prefix and every other migrator's knowledge true |
| `MigratorRuns.RecordKeepsPrefix` | cmd/migrator/main.go:106-111 | Recording a file whose predecessors are applied keeps the prefix; the primary key absorbs a second commit |
| `Migrator.NextInLine` | cmd/migrator/main.go:46-55 | A history that holds every version before a file but not the file's own is exactly the canonical history before it |
| `Migrator.CanonicalFacts` | cmd/migrator/main.go:33-59 | The canonical history holds exactly the versions of the directory, each once |
| `Migrator.CanonicalKeepsFirsts` | cmd/migrator/main.go:46-55 | Of several files with one version the first is applied, and only it: the canonical history holds exactly the files no earlier file shares its version with |
| `Migrator.PaddingKeepsVersion` | cmd/migrator/main.go:70-76 | A name parses to its digits before the first underscore when they fit an int64; a leading zero makes a second file of the same version |
| `Migrator.NoUnderscoreNoVersion` | cmd/migrator/main.go:71-74 | A name without an underscore is refused |
| `MigratorMain.SortedIsUnique` | cmd/migrator/main.go:33-35 | The sorted directory does not depend on how it was listed or sorted |
| `MigratorMain.Migrate` | cmd/migrator/main.go:16-60 | One run over a database only extends a canonical prefix, exits with success only with the whole history applied, and fails only for a fault or a bad name |
| `MigratorMain.Database.ApplyMigration` | cmd/migrator/main.go:90-112 | The transaction applies and records a migration or leaves the table as it was; the primary key refuses a repeated version |
| `HubInterleaving.NoPanic` | internal/notebook/hub/hub.go:22-61 | With lock, unlock, each assignment and each send as separate steps, no interleaving sends on a closed channel or closes one twice |
| `HubInterleaving.RegistryAtRest` | internal/notebook/hub/hub.go:22-61 | Whenever the write lock is free every registered channel is open and registered once, and no inner map is empty |
| `HubInterleaving.NextKeepsInv` | internal/notebook/hub/hub.go:22-61 | Every step of every thread keeps the lock discipline and the soundness of registry and channels |
| `HubOffers.PublishReachesEachOnce` | internal/notebook/hub/hub.go:52-61 | In every interleaving a publish that has returned has sent exactly once to each channel registered for the notebook when it took its read lock, and to nothing else; while it runs, those stay the registered ones |
| `HubOffers.NextKeepsLog` | internal/notebook/hub/hub.go:52-61 | Every step keeps each running publish in line: sent once to each connection done so far |
| `HubRuns.EveryLiveSubscriber` | internal/notebook/hub/hub.go:22-61 | In every run of the whole hub, with any notebooks and connections subscribing, leaving, publishing and receiving: what a live subscriber has received plus what its buffer holds is, in order, exactly what was published to its notebook since it subscribed while the buffer had room; the rest was dropped and the three counts add up |
| `HubRuns.RoomySubscriberMissesNothing` | internal/notebook/hub/hub.go:55-60 | A live subscriber whose buffer had room at every publish since it subscribed has missed nothing |
| `HubRuns.LiveChannel` | internal/notebook/hub/hub.go:22-61 | In every run each registered channel is the one made by the last subscription, of that size, and has been offered exactly what was published to its notebook since |
| `HubRuns.NoChannelTwice` | internal/notebook/hub/hub.go:22-34 | No channel is registered under two connections, in any run |
| `Channel.DeliversWhatFits` | internal/notebook/hub/hub.go:55-60 | What one channel does with whatever it is offered, which `HubRuns.EveryLiveSubscriber` uses for every channel of a run: received plus buffered is, in order, exactly what was offered while there was room |
| `Channel.NeverFullMissesNothing` | internal/notebook/hub/hub.go:55-60 | A channel that has room at every offer loses nothing; `HubRuns.RoomySubscriberMissesNothing` is this in a run of the hub |
| `HubRuns.RegisteredIffLastSubscribed` | internal/notebook/hub/hub.go:22-50 | After any run a connection is registered iff its last act was to subscribe, under the channel made by that subscription |
| `HubRuns.UnsubscribingEveryoneEmpties` | internal/notebook/hub/hub.go:36-50 | When everyone who subscribed has unsubscribed, the hub is empty |
| `HubRuns.Perform` | internal/notebook/hub/hub.go:22-61 | Each act, made on the hub object by its own method, is the step the run theorems speak of; no other connection changes its channel |
| `Hub.Hub.Subscribe` | internal/notebook/hub/hub.go:22-34 | Registers a fresh channel, of the default size when the requested one is not positive, and touches nothing else |
| `Hub.Hub.Unsubscribe` | internal/notebook/hub/hub.go:36-50 | Closes and forgets exactly this connection's channel and drops an emptied notebook |
| `Hub.Hub.Publish` | internal/notebook/hub/hub.go:52-61 | Offers the event once to every channel of the notebook and to no other |
| `Stream.SubscribeNotebook` | internal/notebook/grpc/server.go:231-285 | While others subscribe, leave, publish, receive or even remove this connection: the loop stops exactly at the first round that sees the client gone, the channel closed and drained, or a send fail; `sent` counts what the client got, which is all its channel delivered but the event whose send failed; the connection is gone afterwards and, if others only published and received, the hub is as before |
| `Stream.Serve` | internal/notebook/grpc/server.go:243-284 | The loop on the hub object is the loop on values, round by round |
| `Stream.ForwardedInOrder` | internal/notebook/grpc/server.go:243-284 | What the client gets is, in order, a prefix of what was published to its notebook meanwhile while its buffer had room, and all of it when the loop finds nothing to forward or meets a closed channel |
| `Stream.OfferedIsHeard` | internal/notebook/grpc/server.go:238-243 | The stream's channel is offered exactly what others publish to the notebook until somebody removes the connection |
| `BillingPayments.FinalIsForever` | internal/payment/usecase/payment.go:138-212 | In every run of webhooks, polls and everything else a stored `succeeded` or `canceled` never changes |
| `BillingPayments.ActivatedAtMostOnce` | internal/payment/usecase/payment.go:200-231 | Each payment inserts at most one subscription row, only once it is succeeded, and rows stay |
| `BillingPayments.NextKeepsInv` | internal/payment/usecase/payment.go:138-231 | Every step keeps statuses in line with the provider and inserts a row only where MarkPaid has just succeeded |
| `BillingPayments.SucceededIffActivatedOnce` | internal/payment/usecase/payment.go:200-231 | After a run payments are stored as succeeded exactly when they have a subscription row, never two, iff at every step of the run that pays a payment MarkPaid answered, the plan list was read and the insert took effect; the plan itself is the subject of `BillingPayments.GrantedIffPayingStepWorked` |
| `BillingPayments.PayingActivatesExactly` | internal/payment/usecase/payment.go:193-231 | The step that turns a payment succeeded inserts its row iff MarkPaid answered, the plan list was read and the insert took effect |
| `BillingPayments.ActivatedIffPayingStepWorked` | internal/payment/usecase/payment.go:138-231 | In every run a payment that ends up succeeded was paid at one step, and has a row at the end iff the deciding calls of that step worked |
| `BillingPayments.PayingGrantsExactly` | internal/payment/usecase/payment.go:214-231 | The step that turns a payment succeeded gives its payer the plan, and changes no other user, iff MarkPaid answered, the plan list was read, the insert answered and SetUserPlan took effect; otherwise no user changes |
| `BillingPayments.GrantedIffPayingStepWorked` | internal/payment/usecase/payment.go:138-231 | In every run the payer gets the plan at the paying step iff those calls worked, and at no other step does a webhook or poll of the payment change any user |
| `BillingPayments.PaidEventsDoNothing` | internal/payment/usecase/payment.go:138-198 | Once a payment is stored as succeeded its webhooks and polls change nothing at all |
| `BillingPayments.PaidOnce` | internal/payment/usecase/payment.go:138-212 | A payment turns succeeded at most once in a run |
| `BillingPayments.GrantCanBeMissed` | internal/payment/usecase/payment.go:226-231 | With SetUserPlan failing, a payment is paid and has its row, the payer keeps the old plan, and no later webhook or poll of it changes that |
| `BillingPayments.MissedActivationIsNeverMadeUp` | internal/payment/usecase/payment.go:193-195 | A payment marked paid whose activation failed stays without a row in every later run |
| `BillingPayments.ActivationCanBeMissed` | internal/payment/usecase/payment.go:203-206 | Such a payment arises from one failing insert |
| `BillingPayments.CleanActivation` | internal/payment/usecase/payment.go:214-231 | An activation whose calls take effect inserts one row that ends the plan's days later and sets the plan; it reports success iff SetUserPlan answered |
| `BillingPayments.ClaimsAreIgnored` | internal/payment/usecase/payment.go:176-198 | Two runs that differ only in what webhooks claim end in the same state |
| `Billing.DurationExact` | internal/payment/usecase/payment.go:220-220 | A plan's duration survives the int64 nanoseconds iff its days are within 106751 |
| `BillingPlans.PaidPlanIsKept` | internal/auth/usecase/event.go:56-71 | With no new row and no admin change, a paid plan lasts up to and including the user's latest expiry through any interleaving of heartbeats, session checks, webhooks, polls, other users' payments and failures |
| `BillingPlans.PlanStandsUntilChecked` | internal/auth/usecase/event.go:56-71 | However late it is, the plan stands until a heartbeat or session check of the user comes after the latest expiry |
| `BillingPlans.ActivationSubscribes` | internal/payment/usecase/payment.go:214-231 | Right after an activation whose calls take effect the user has the plan and a row that ends no earlier than its expiry |
| `BillingPlans.CheckEndsPlanExactly` | internal/auth/usecase/auth.go:242-256 | A step that inserts no row for a paid user and is no administrator's leaves the user on free iff it is a heartbeat or session check whose reads and downgrade work, after every row of the user has expired; otherwise the plan stands. A failing time increment does not matter |
| `BillingPlans.FirstLateCheckEndsPlan` | internal/auth/usecase/auth.go:228-260 | After any run without a new row, an admin change or a late check, the next check that reaches the subscription leaves the user on free iff the user's latest expiry is past, and on the plan otherwise |
| `BillingPlans.ActivatedPlanLifetime` | internal/payment/usecase/payment.go:214-231 | From the activation on: with expiry E and earlier rows up to L, after any such run the first check that reaches the subscription ends the plan iff E is past and L is absent or past |
| `BillingPlans.LatestIsGreatest` | internal/auth/repository/postgres/subscription.go:19-37 | The subscription view returns the greatest expiry among the user's rows |
| `BillingPlans.EqualPlansEndInOrder` | internal/payment/usecase/payment.go:220-224 | From the empty store, when the two paid plans last equally long, rows end in the order they were inserted, in every run |
| `BillingPlans.ShorterPlanDoesNotEnd` | internal/auth/usecase/event.go:63-70 | A run of two purchases, the second plan shorter: a clean heartbeat after the second's expiry leaves the user on that plan |
| `BillingPlans.LatestActivationCountsExactly` | internal/payment/usecase/payment.go:214-231 | In every run the latest activation's expiry is the one that counts, iff the two paid plans last equally long |
| `BillingPlans.TimeIsConserved` | internal/auth/usecase/event.go:39-42 | In every run a user's total time is 60 seconds per counted heartbeat |
| `BillingPlans.FreeUntilTheLimit` | internal/auth/usecase/event.go:44-50 | A user who enters a clean heartbeat free leaves it free iff the new total is below 10740 |
| `BillingPlans.FrozenFromThe179th` | internal/auth/usecase/event.go:39-50 | A fresh free user who pays nothing is free for exactly the first 178 heartbeats and frozen from the 179th on, whatever session checks and other users do |
| `BillingPlans.AdminsComeFromAdmins` | internal/auth/usecase/admin.go:118-126 | In every run from a store without administrators there never is one |
| `BillingService.Backend.HandleWebhook` | internal/payment/usecase/payment.go:176-198 | The handler, call by call, reaches the state and answer of the step the run theorems speak of |
| `BillingService.Backend.GetStatus` | internal/payment/usecase/payment.go:138-169 | The poll, call by call, reaches that step's state and reports the provider's status |
| `BillingService.Backend.ActivateSubscription` | internal/payment/usecase/payment.go:214-231 | The activation, call by call with each call failing or not, is that step |
| `BillingService.Backend.FindPlanByID` | internal/payment/usecase/payment.go:233-244 | The search loop returns the first plan with the id |
| `BillingService.Backend.TrackEvent` | internal/auth/usecase/event.go:22-54 | The heartbeat handler, call by call, is that step |
| `BillingService.Backend.ValidateSession` | internal/auth/usecase/auth.go:228-260 | The session check, call by call, is that step |
| `BillingService.Backend.AdminSetsPlan` | internal/auth/usecase/admin.go:118-126 | A caller who is not an administrator, or an unknown plan, changes nothing; otherwise the target gets the plan, with the admin flag iff the plan is admin, and nobody else's row changes |
| `OAuthSafety.SuccessLinks` | internal/auth/usecase/oauth.go:124-157 | A callback that succeeds leaves its identity linked to the user it returns |
| `OAuthSafety.LinkDecides` | internal/auth/usecase/oauth.go:125-132 | A callback for a linked identity returns the linked user or fails, and creates nobody, whatever the provider reports |
| `OAuthSafety.VerifiedIdentityIsStable` | internal/auth/usecase/oauth.go:84-204 | After any run every later success for a linked identity of a verified user returns that user |
| `OAuthSafety.StableIffVerified` | internal/auth/usecase/oauth.go:84-204 | For a provider configured under its own name: every later success for a linked identity, after every run, returns the linked user iff that user is verified |
| `OAuthSafety.SecondUserArises` | internal/auth/usecase/auth.go:292-302 | The run behind it: cleanup deletes an unverified user and the link, somebody registers the address under any free name and confirms it, and the next login for the same identity returns them |
| `OAuthSafety.UnvouchedUserIsUnverified` | internal/auth/usecase/oauth.go:159-204 | With no call failing, a new identity whose address the provider does not vouch for leaves a linked, unverified user |
| `OAuthSafety.NewUserVerifiedExactly` | internal/auth/usecase/oauth.go:159-204 | A new user is verified iff the provider vouches for the address or gives none, and SetVerified takes effect |
| `OAuthSafety.DeletedNeverReturns` | internal/auth/usecase/auth.go:292-302 | A deleted user's id is never handed out again and never answered by a callback |
| `OAuthSafety.StableWithoutCleanup` | internal/auth/usecase/oauth.go:84-204 | With nobody deleted, every later success for a linked identity returns its user, verified or not, and creates nobody |
| `OAuthSafety.RacingCallbacksDisagree` | internal/auth/usecase/oauth.go:124-157 | Two callbacks for one unlinked identity that both read before either writes, whatever the provider reports and whatever fails: once the first writer succeeds, the second succeeds with a different user iff it found an account by address that the first did not find and its link insert does not fail; so if both succeed they agree iff they found the same. Run after the first, the second would have returned the first's user or failed |
| `OAuthSafety.TwoFindsDisagree` | internal/auth/usecase/oauth.go:137-157 | With no call failing both succeed with different users when each found another account, or the first writer found nobody and the second an account |
| `OAuthSafety.RaceArises` | internal/auth/usecase/oauth.go:134-157 | Both kinds of reads are reached by a run from nothing, with two registered accounts |
| `OAuthSafety.StateIsUsedOnce` | internal/auth/usecase/oauth.go:53-109 | In every run a state reaches an exchange no more often than it was issued, only under the provider it was issued for, with a verifier that hashes to the challenge issued with it (sections 4.1, 4.2 and 4.6 of RFC 7636) |
| `OAuthSafety.FreshStatesAreUsedOnce` | internal/auth/usecase/oauth.go:53-109 | When no two logins start under one state, each state is exchanged at most once in the whole run |
| `OAuthSafety.SpentStateStaysUnused` | internal/auth/usecase/oauth.go:84-109 | A state that is not waiting is not exchanged in any run until a login starts under it again |
| `OAuthSafety.MismatchBurnsState` | internal/auth/usecase/oauth.go:94-103 | A callback under the wrong provider uses the state up: nothing is exchanged for it, then or in any later run, until a login starts under the same state again |
| `OAuthSafety.StatesStep` | internal/auth/usecase/oauth.go:69-109 | A step only issues one state, only spends one state on one exchange of its own provider, or only loses states |
| `OAuthService.Service.StartLogin` | internal/auth/usecase/oauth.go:53-82 | Stores the verifier under the state and hands out the challenge that hashes from it |
| `OAuthService.Service.HandleCallback` | internal/auth/usecase/oauth.go:84-122 | The callback, call by call, reaches the state and answer of the step the run theorems speak of |
| `OAuthService.Service.ResolveUser` | internal/auth/usecase/oauth.go:124-157 | Resolving a user, call by call, is that step |
| `OAuthService.Service.CreateOAuthUser` | internal/auth/usecase/oauth.go:159-204 | Creating a user, call by call, is that step |
| `Usernames.GenerateUsername` | internal/auth/usecase/oauth.go:206-227 | At most ten lookups, none of which failed on a success; the least-indexed free name among base, base2 to base10, or a suffixed one only when all ten are taken; a failing lookup is an error |
| `Usernames.CandidatesDiffer` | internal/auth/usecase/oauth.go:212-216 | The ten candidates are pairwise distinct |
| `Usernames.SanitizeUsername` | internal/auth/usecase/oauth.go:229-242 | At most 32 bytes, a prefix of the trimmed and filtered input |
| `Usernames.SanitizeTwice` | internal/auth/usecase/oauth.go:237-241 | Sanitizing again drops exactly the piece of a rune the cut left behind |
| `Usernames.IdempotentExactly` | internal/auth/usecase/oauth.go:229-242 | Sanitizing is idempotent iff nothing is cut or the first byte cut away is no UTF-8 continuation byte |
| `Usernames.CutByteTells` | internal/auth/usecase/oauth.go:237-241 | A cut keeps whole runes only, iff the byte after it is no continuation byte |
| `Usernames.IdempotentOnAscii` | internal/auth/usecase/oauth.go:229-242 | In particular when what is kept is ASCII |
| `Usernames.CutCanSplitRune` | internal/auth/usecase/oauth.go:238-240 | One ASCII letter and sixteen two-byte letters lose half of the last letter |
| `Utf8.DecodeEncode` | internal/auth/usecase/oauth.go:232-236 | Ranging over encoded runes reads them back, whatever bytes follow |
| `Utf8.CutRuneIsErrors` | internal/auth/usecase/oauth.go:239-239 | The first bytes of a rune cut before its end decode to replacement characters only |
| `Uploads.SendInChunks` | internal/gateway/handler/profile_handler.go:78-106 | Sends chunks that join to the data, metadata on the first only, all but the last of 65536 bytes, max(1, ceil(n/65536)) of them; after a failing send what was sent is a prefix |
| `Uploads.ReceiveAvatar` | internal/auth/grpc/server.go:161-185 | The buffer is the join of all chunks; owner, filename and size are those of the first chunk with an owner; refused iff there is none or the stream fails |
| `Uploads.UploadAvatar` | internal/auth/grpc/server.go:161-194 | Sender and receiver together are lossless for every byte string and every non-zero owner, and refuse a zero owner |
| `Uploads.Forward` | internal/auth/usecase/storage_uploader.go:19-67 | For every reader that obeys its contract the chunks are its non-empty reads, one by one, or one empty chunk when there are none; exactly the first carries metadata; success iff the reader ended cleanly and the stream took every chunk |
| `Uploads.ForwardReads` | internal/auth/usecase/storage_uploader.go:25-48 | The loop over one reused buffer forwards each non-empty read as one chunk with just its bytes, up to a failing send, the end or a broken read |
| `Uploads.PortionsFit` | internal/auth/usecase/storage_uploader.go:22-48 | No chunk is longer than the buffer, and none is empty unless it is the only one |
| `JsonText.ObjectMeans` | internal/domain/domain_easyjson.go:1266-1368 | The generated object loop, on the tokens of any JSON value followed by anything, yields the value's meaning and leaves exactly what follows, or fails when there is no meaning |
| `JsonText.DocumentMeans` | internal/domain/domain_easyjson.go:1444-1449 | A whole document decodes iff it has a meaning and nothing follows it |
| `JsonText.SliceMeans` | internal/domain/domain_easyjson.go:1310-1335 | The slice loop yields nil for null and otherwise every element in order, nulls as zero values |
| `JsonText.SkipMeans` | internal/domain/domain_easyjson.go:1359-1360 | Skipping an unknown member's value, by counting one kind of bracket, leaves exactly what follows the value |
| `Documents.NotebookMeans` | internal/domain/domain_easyjson.go:1266-1368 | The notebook's field decoder means its table of keys on every value, and never unreads |
| `Documents.BlockMeans` | internal/domain/domain_easyjson.go:3682-3798 | The same for blocks, with absent execution counts and nested outputs |
| `Documents.OutputMeans` | internal/domain/domain_easyjson.go:3315-3376 | The same for block outputs |
| `Documents.StatsMeans` | internal/domain/domain_easyjson.go:719-794 | The same for storage statistics, maps included |
| `DocumentRoundTrip.NotebookRoundTrip` | internal/domain/domain_easyjson.go:1266-1430 | For every notebook, decoding the encoder's tokens followed by any remainder returns the notebook and exactly that remainder: nil and empty slices stay apart, absent counts stay absent, whatever the target held before |
| `DocumentRoundTrip.NotebookDocument` | internal/domain/domain_easyjson.go:1432-1449 | As a whole document the notebook decodes to itself iff nothing follows |
| `DocumentRoundTrip.BlockReturns` | internal/domain/domain_easyjson.go:3682-3869 | Decoding a block's members returns the block |
| `DocumentRoundTrip.StatsRoundTrip` | internal/domain/domain_easyjson.go:719-852 | Both maps survive for every iteration order, nil as nil and empty as empty |
| `DocumentRoundTrip.StaleCountsStay` | internal/domain/domain_easyjson.go:719-794 | Decoding encoded statistics into any target leaves exactly what follows and returns each encoded map, or the target's own where a nil map was encoded; it returns the statistics iff each map was not nil or the target held none |
| `DocumentRoundTrip.StatsIgnoresUnknown` | internal/domain/domain_easyjson.go:785-786 | Two objects that differ only in unknown members, anywhere and of any value, both fail or decode to the same statistics |
| `DocumentRoundTrip.NotebookIgnoresUnknown` | internal/domain/domain_easyjson.go:1359-1360 | The same for notebooks |
| `Decoders.DecodeNotebook` | internal/domain/domain_easyjson.go:1266-1368 | The decoder with its loops is the function the theorems speak of |
| `Decoders.DecodeBlock` | internal/domain/domain_easyjson.go:3682-3798 | Likewise for blocks |
| `Decoders.DecodeOutput` | internal/domain/domain_easyjson.go:3315-3376 | Likewise for block outputs |
| `Decoders.DecodeStats` | internal/domain/domain_easyjson.go:719-794 | Likewise for storage statistics |
| `Encoders.EncodeNotebook` | internal/domain/domain_easyjson.go:1369-1430 | Appends exactly the notebook's text, and records an error iff some time cannot be written |
| `Encoders.EncodeBlock` | internal/domain/domain_easyjson.go:3799-3869 | Likewise for blocks |
| `Encoders.EncodeOutput` | internal/domain/domain_easyjson.go:3377-3412 | Likewise for block outputs |
| `Encoders.EncodeStats` | internal/domain/domain_easyjson.go:795-852 | Appends the statistics' text under some iteration order of each map |
| `Json.NotebookThrough` | internal/domain/domain_easyjson.go:1432-1449 | Running encoder and decoder back to back succeeds iff every time can be written and returns the notebook |
| `Json.StatsThrough` | internal/domain/domain_easyjson.go:854-871 | Running encoder and decoder back to back returns the statistics |

## Left out

- Postgres and Redis themselves: repositories are maps and sequences with the uniqueness, foreign-key and check
  constraints of the migrations; expiry of a Redis state is an event of its own.
- Fine-grained interleaving inside payment, heartbeat, session-check and login handlers.
- Writer preference of the RWMutex: the model allows more interleavings than it does, so the safety results cover it.
- The window in which a channel is made before the write lock is taken: it is made in the step that takes the lock.
- SetBan, user listing, statistics and the other admin calls; login by password; e-mail confirmation beyond its effect
  on the verified flag.
- The webhook's own payload beyond the payment id and the claimed status; amounts, receipts, confirmation tokens.
- Lower-casing of addresses is modelled on ASCII, and a lookup by address returns the least id among several matches.
- The format checks of user names and addresses at registration (internal/pkg/httputil/validate.go).
- The avatar write inside createOAuthUser, which touches no row the theorems speak of.
- Versions beyond the 32-bit column of schema_migrations: such an insert is one of the faults of `MigratorMain`.
- Migration files whose SQL commits or rolls back by itself.
- Character-level JSON: escaping, numerals that are not plain integers (one token), white space; the lexer's check that
  a skipped value is valid JSON; the partly filled value after a failed decode is only what the loops leave. The lexer
  and writer packages are not part of the repository.
- Time values: a time is its text, so two texts of one instant count as different times.
- NilSliceAsEmpty and NilMapAsEmpty flags of the writer: the encoders are called without them.
- All other generated encoders and decoders: they repeat the same shapes.
- Aliasing of the reused upload buffer with a chunk still in flight: a send is taken to have copied its bytes.
- The file chunker of internal/gateway/handler/file_handler.go:105-132 is the loop of `Uploads.SendInChunks` with one
  more metadata field, which that method carries.
- HTTP and gRPC plumbing, logging, middleware chaining, image processing, mail, the runner and the quota package.
