# Gateway verification

A Dafny model of the parts of the gateway whose correctness is hard to see from any single function, with proofs of what
they promise together. `dafny verify dfyconfig.toml` checks everything.

## What is modelled

**The OAuth token service.** Authorization codes, refresh-token families, gateway keys and invite codes live in five
tables. `TokenTables` says what each transaction or single statement does to them; `TokenStore.Store` runs the same
transactions statement by statement, with rollback, and is proved equal to that. `TokenProtocol` is the service as a state
machine: one database connection serialises transactions and statements, so each is one atomic step, and a request in
flight keeps its place between steps (an invite is selected in one step and claimed in another, a code is taken in one
transaction and exchanged in another). Steps of any number of requests, administrators, restarts and the clock interleave
freely. `TokenInvariant` proves one invariant that ties the five tables together, from any migrated database: grants that
the migration named and retained in the history, grants and codes the old process issued after it, and retained rows whose
grant it consumed; `TokenTheorems`, `TokenLifetime`, `TokenVerification`, `TokenBudget` and `TokenPurge` draw the
conclusions about whole runs.

**The endpoint pool and the forwarder.** `EndpointPool.KeyRepo` is the repository object with its updates; timestamps are
stored and compared as text, as in SQLite. `PoolQueue` shows that selection is a queue in which a failing endpoint moves to
the back, and proves fairness and rotation; `PoolQuota` shows that quota work and inference do not see each other.
`Forwarder.Forward` is the retry loop on top of the pool, with other parties writing before each selection and during each
upstream call. `QuotaConfig` holds the quota sidecar rules, `Cooldown` the cooldown policy and the Retry-After header.

**The operator sign-in with GitHub.** `OperatorLogin` holds the settings and the two statements on the flow table,
`OperatorProtocol` the interleaved steps of Save, Start, Finish and Consume.

**Small cores.** `Timestamps` (RFC3339Nano text and its order), `Scopes` (scope normalisation), `Base62` (unbiased
sampling), `QuotaPaging` (paged totals in int64), `RegistrationLimiter`, `EnvFile` (rewriting one binding).

## Findings

Where a promise does not hold of the code as it stands, the model keeps the code and proves when it does hold.

- Text order is time order except inside one second, where a fraction that continues another one sorts first
  (`Timestamps.TextOrderInverts`). An invite can therefore be refused as exhausted in its last second
  (`InviteExpiry.TextTestMayRefuse`, `InviteExpiry.LastInstant`), and of two failures inside one second the later one may be
  tried again first (`PoolQueue.UnfairInsideOneSecond`). Fairness between two endpoints fails in some run exactly when the
  stamp of the demotion sorts before the other's recorded failure (`PoolQueue.FairnessExactly`,
  `PoolQueue.FairnessByTheClock`).
- The promise that no key of a family is accepted more than two hours after the expiry of the family fails, because a
  refresh reads the clock again after its expiry check. It fails for exactly those keys that were minted by a refresh
  straddling the expiry, which shows in their grant rows as a creation after the expiry (`TokenLifetime.LifetimeExactly`,
  `TokenLifetime.OutlivesExactly`), and it can fail in every installation (`TokenLifetime.LateAcceptance`).
- The two quota writes read a row in one statement and write it in another. They keep the sidecar invariant exactly when no
  conflicting change comes between (`QuotaConfig.UpdateKeeps`, `QuotaConfig.RotateKeeps`, `QuotaConfig.InterleavedBreaks`).
- A Retry-After beyond 9223372036 seconds wraps in int64 (`Cooldown.SecondsAreHonoured`, `Cooldown.WrappedRetryAfter`).
- An env key that starts with a space is appended again by every write (`EnvFile.RewriteTwice`).

## Model

| member | source | states |
|---|---|---|
| Timestamps.TextOrder | internal/providers/keys.go:569-579 | Exactly when one stored instant is textually smaller than another: an earlier whole second, or the fraction order inside the same second |
| Timestamps.TextWithinOneSecond | internal/providers/keys.go:569-579 | A test on the text is wrong by less than one second, in both directions, and never across seconds |
| Timestamps.TextOrderInverts | internal/providers/keys.go:569-579 | The text order contradicts the time order if and only if both instants lie in one second and the earlier one's digits are a truncation of the later one's |
| Timestamps.LaterText | internal/gatewaykeys/invite.go:177-187 | A later instant is textually greater except in exactly that case |
| Timestamps.TextsApart | internal/providers/keys.go:569-579 | Texts of instants a second or more apart compare as the instants do, so a cooldown that ends a second or more after a selection still excludes its endpoint |
| Timestamps.DatedYears | internal/providers/keys.go:569-569 | The instants these statements cover are exactly those with a year of at most four digits |
| Timestamps.ParseUndoesFormat | internal/gatewaykeys/invite.go:164-171 | Parsing a stored timestamp gives back the instant that was formatted, for every four-digit year |
| InviteExpiry.TextTestMayRefuse | internal/gatewaykeys/invite.go:164-199 | A redemption succeeds if and only if all checks pass and not: the invite expires in the same second and the clock's fraction truncates the expiry's; never refused so with a second left, and an expired invite never passes, whatever the text test answers |
| InviteExpiry.LastInstant | internal/gatewaykeys/invite.go:164-199 | A concrete invite and instant, half a second into 2026: every check passes, the invite is unexpired and unused, and its redemption is refused |
| Scopes.FindScope | internal/mcpoauth/server.go:1003-1010 | The search loop finds a scope exactly when it is one of the fields |
| Scopes.NormalizeScope | internal/mcpoauth/server.go:1012-1033 | The loop over the fields computes the normal form, or refuses unknown or missing tokens |
| Scopes.NormalFormKeepsTokens | internal/mcpoauth/server.go:1012-1033 | The normal form has exactly the requested tokens |
| Scopes.NormalFormIsFixed | internal/mcpoauth/server.go:1012-1033 | Normalising is a fixed point on its own output |
| Scopes.NormalFormDecidesTokens | internal/mcpoauth/server.go:1012-1033 | Two accepted requests have equal normal forms if and only if they ask for the same tokens |
| Scopes.RequestedScope | internal/mcpoauth/server.go:1003-1033 | The two optional permissions read from the normal form are those requested |
| TokenTables.KeysAfter | internal/gatewaykeys/keys.go:217-310 | Whatever one key statement does, owner, origin, invite and creation of the other rows stay, and a revocation is never undone |
| TokenStore.Store.RedeemTx | internal/gatewaykeys/invite.go:135-201 | SELECT, checks and guarded UPDATE: which error is reported, and one redemption counted exactly on success |
| TokenStore.Store.TakeCode | internal/mcpoauth/server.go:672-704 | The code row is returned and gone, whatever follows |
| TokenStore.Store.InsertKey | internal/gatewaykeys/keys.go:89-125 | A new enabled key under the next id, nothing else |
| TokenStore.Store.MintGrant | internal/mcpoauth/server.go:730-799 | Key, grant and history row appear together, or, at whichever of its statements the transaction fails, every table is as it was |
| TokenStore.Store.Refresh | internal/mcpoauth/server.go:826-967 | The refresh transaction, which deletes the grant before its last checks, ends in rotation, family kill or, when it is refused, the very tables it began with |
| TokenStore.Store.BindLegacyGrants | internal/mcpoauth/grants.go:7-29 | The loop over the five statements leaves the reconciled tables |
| TokenStore.Store.Enable | internal/gatewaykeys/keys.go:260-267 | The usable keys afterwards are those before and this one, unless it is revoked; other rows and columns stay |
| TokenStore.Store.Disable | internal/gatewaykeys/keys.go:246-258 | The usable keys afterwards are those before except this one; its other columns and all other rows stay |
| TokenStore.Store.Revoke | internal/gatewaykeys/keys.go:269-277 | The usable keys afterwards are those before except this one, whose row is marked revoked; all other rows stay |
| TokenStore.Store.RevokeUnused | internal/gatewaykeys/keys.go:279-301 | A number of days that is not positive is refused; otherwise exactly the usable keys created and last used textually before the cutoff are revoked, and their number is reported |
| KeyAge.RecentKeysStay | internal/gatewaykeys/keys.go:279-301 | A key created or used a second or more after the cutoff is never selected, whatever its text looks like |
| KeyAge.OldKeysAreStale | internal/gatewaykeys/keys.go:279-301 | A key created, and if ever last used, a second or more before the cutoff is always selected |
| TokenStore.Store.Delete | internal/gatewaykeys/keys.go:303-310 | The row is gone and its id is not given out again; the usable keys afterwards are those before except this one, and all other rows stay |
| TokenStore.Store.Touch | internal/gatewaykeys/keys.go:217-224 | No key becomes usable or unusable; the row of an existing key differs in its last use only, and all other rows stay |
| TokenStore.Store.RevokeInvite | internal/gatewaykeys/invite.go:111-130 | The invite is revoked once; an unknown id is reported |
| TokenProtocol.SubmittedRedeems | internal/mcpoauth/server.go:482-496 | An authorization that goes on to its invite is judged by RedeemTx exactly as the submitted, untrimmed code and label would be |
| TokenInvariant.StartExists | internal/store/migrations.go:294-308 | Every migrated database is the start of a run: grants that were named and copied into the history, grants and codes issued afterwards, history rows whose grant is gone |
| TokenInvariant.StartInv | internal/store/migrations.go:294-308 | Each of them satisfies the invariant |
| TokenInvariant.StepInv | internal/mcpoauth/server.go:460-967 | Every atomic step of authorize, exchange, refresh, administration and restart keeps the invariant over the five tables |
| TokenInvariant.RunInv | internal/store/store.go:40-41 | So does every interleaving of any length |
| TokenInvariant.ReconciledGrants | internal/mcpoauth/grants.go:17-19 | What restart makes of every code and grant: bound to the resource, named after its family |
| TokenInvariant.ReconciledHistory | internal/mcpoauth/grants.go:20-21 | Which history rows exist after restart, and what they hold |
| TokenTheorems.RotatedTokenIsReplay | internal/mcpoauth/server.go:842-863 | A token that was rotated away is always recognised as a replay while its family is unexpired |
| TokenTheorems.ReplayKillsFamily | internal/mcpoauth/server.go:842-863 | After a replay no later run, with whatever administrators do, accepts a key of the family or rotates one of its tokens |
| TokenTheorems.AtMostOneRotation | internal/mcpoauth/server.go:875-885 | Of all refreshes with one token, however interleaved, at most one rotates it |
| TokenTheorems.NoResurrection | internal/server/server.go:195-236 | A key that was revoked, deleted or rotated away is never accepted again, whatever enable, disable, delete and restart steps follow |
| TokenTheorems.WhatRetires | internal/mcpoauth/server.go:912-917 | Rotation retires the old key; revocation and deletion retire any key |
| TokenTheorems.OneAcceptedKeyPerFamily | internal/server/server.go:213-236 | At most one key of a refresh family is accepted at any time |
| TokenTheorems.FamilyLifetime | internal/mcpoauth/server.go:776-795 | All grants and history rows of a family share the expiry fixed at exchange, 14 days later, and nothing is rotated after it |
| TokenLifetime.LifetimeExactly | internal/mcpoauth/server.go:944-957 | An accepted key can, by some later run, be accepted more than two hours after the expiry of its family if and only if its grant row says so: for a key of this service, created after it expires; for a legacy key, with an access expiry that late |
| TokenLifetime.OutlivesExactly | internal/mcpoauth/server.go:887-957 | And this is so if and only if the key was minted by a refresh whose expiry check passed before the expiry and whose last clock reading fell after it; then it ends two hours after that reading. No other refresh matters |
| TokenLifetime.LateAcceptance | internal/mcpoauth/server.go:887-957 | From every migrated database there is a run (authorization, exchange, a refresh at the expiry, two hours) after which a key is accepted two hours and the duration of that refresh after the expiry |
| TokenTheorems.RunFamilies | internal/mcpoauth/server.go:944-957 | What a family was founded with never changes over any run |
| TokenTheorems.ScopeProvenance | internal/mcpoauth/server.go:538-556 | A grant carries its family's scope; config:write only comes from an operator; without offline access a family has a single key |
| TokenTheorems.RefreshChangesExactly | internal/mcpoauth/server.go:842-903 | A refresh changes a table if and only if it rotates, or is a replay of a family of which an enabled key or a grant is left |
| TokenTheorems.ExchangeIsComplete | internal/mcpoauth/server.go:712-800 | A family is founded only by inserting key, grant and history row together, for a matching client, redirect URI and PKCE proof |
| TokenTheorems.CodeIsSpent | internal/mcpoauth/server.go:672-704 | A presented code is never in the table again, whatever the later checks decide |
| TokenVerification.VerificationLinearizes | internal/server/server.go:195-236 | Although verification reads the tables three times, a key that passes was acceptable as a whole at the first read |
| TokenVerification.VerificationExactly | internal/server/server.go:195-236 | A key can pass a verification that starts now, with anything happening between its reads, if and only if it is acceptable now |
| TokenBudget.InviteBudget | internal/gatewaykeys/invite.go:177-199 | Families, unexchanged codes and in-flight requests of an invite never exceed its redemption count, nor that its maximum; so no more keys carrying it are ever accepted at once |
| TokenBudget.UpgradedInstallation | internal/store/migrations.go:294-308 | A migrated database with redeemed invites starts within budget when the grants and codes of each invite are among its counted redemptions |
| TokenBudget.NewInstallation | internal/gatewaykeys/invite.go:41-80 | A new installation starts within budget |
| TokenBudget.CodeYieldsOneFamily | internal/mcpoauth/server.go:672-800 | However many exchanges present one code, it founds at most one family (section 4.1.2 of RFC 6749) |
| TokenPurge.PurgeIsInvisible | internal/mcpoauth/grants.go:21-21 | Running the history purge at any time changes no later token response, and the databases differ only in expired rows |
| Cooldown.SecondsAreHonoured | internal/cooldown/cooldown.go:38-62 | The seconds form is honoured up to ten minutes if and only if the product fits int64 or wraps to above the cap |
| Cooldown.WrappedRetryAfter | internal/cooldown/cooldown.go:38-62 | The header 9223372037 is parsed to a delay of minus 292 years |
| Cooldown.RetryAfterIsCapped | internal/cooldown/cooldown.go:38-62 | No delay exceeds ten minutes; a date gives the time until then, and zero if and only if it is not in the future |
| QuotaConfig.ValidIsOk | internal/providers/endpoint_quota.go:93-146 | Every accepted input is a configuration a row may hold |
| QuotaConfig.OkIsValid | internal/providers/endpoint_quota.go:93-146 | Every such configuration can be asked for |
| QuotaConfig.CreatedOk | internal/providers/keys.go:138-148 | Creation establishes the sidecar invariant |
| QuotaConfig.UpdateKeeps | internal/providers/keys.go:200-271 | The UPDATE keeps the sidecar invariant if and only if it clears the key, there is none, or the row still has the requested flow |
| QuotaConfig.RotateKeeps | internal/providers/keys.go:275-321 | The UPDATE keeps it if and only if the row is still in separate mode under the flow that was read |
| QuotaConfig.InterleavedBreaks | internal/providers/keys.go:275-321 | A concrete interleaving of two administrators that breaks it |
| QuotaConfig.SkipsAgree | internal/providers/quota_refresh.go:254-266 | The skip tests of refresh-all agree with the errors of ResolveEndpointQuota on every valid row |
| QuotaConfig.RefreshAll | internal/providers/quota_refresh.go:233-282 | The walk stops only at a failed write, and its counters partition the keys walked |
| QuotaConfig.VerdictsPartition | internal/providers/quota_refresh.go:233-282 | Every key gets exactly one verdict |
| EndpointPool.FirstExists | internal/providers/keys.go:574-579 | Some row is returned as soon as one is eligible |
| EndpointPool.FirstIsUnique | internal/providers/keys.go:574-579 | And only one |
| EndpointPool.KeyRepo.SelectEndpoint | internal/providers/keys.go:565-605 | The first eligible row is selected with its own URL and key, and only its time of last use changes |
| EndpointPool.KeyRepo.MarkSuccess | internal/providers/keys.go:731-744 | Demotion and streak are cleared, a running cooldown stays |
| EndpointPool.KeyRepo.MarkFailureWithCooldown | internal/providers/keys.go:754-785 | The cooldown is overwritten, also with nothing; the endpoint is demoted only when one is given |
| EndpointPool.KeyRepo.ResetCooldown | internal/providers/keys.go:443-462 | Cooldown and demotion are cleared |
| EndpointPool.KeyRepo.ResetSelection | internal/providers/keys.go:466-480 | Only the demotion is cleared |
| EndpointPool.KeyRepo.DemoteToEnd | internal/providers/keys.go:484-498 | Only the demotion is set |
| EndpointPool.KeyRepo.AddEndpointWithQuota | internal/providers/keys.go:108-196 | When an endpoint is added and with which columns; otherwise nothing changes |
| EndpointPool.KeyRepo.UpdateEndpointQuota | internal/providers/keys.go:200-271 | Without interference the sidecar is updated as validated, and stays valid |
| EndpointPool.KeyRepo.RotateEndpointQuotaKey | internal/providers/keys.go:275-321 | Without interference the key is replaced exactly in separate mode, and the sidecar stays valid |
| PoolQueue.LineExists | internal/providers/keys.go:574-579 | The rows of a provider form a queue |
| PoolQueue.LineIsUnique | internal/providers/keys.go:574-579 | And only one |
| PoolQueue.ChoiceIsFirstInLine | internal/providers/keys.go:565-605 | Selection takes the first eligible endpoint of the queue |
| PoolQueue.DemotionMovesBack | internal/providers/keys.go:756-780 | A cooling failure or manual demotion moves the endpoint to the back and keeps the order of the others |
| PoolQueue.ClearingMovesUp | internal/providers/keys.go:731-744 | A success or reset moves the endpoint before every endpoint with a recorded failure and keeps the order of the others |
| PoolQueue.OthersKeepLine | internal/providers/keys.go:716-785 | Every other update keeps the queue |
| PoolQueue.Fairness | internal/providers/keys.go:565-605 | An endpoint demoted and selected again, without success, reset or new demotion, is selected only after every other eligible endpoint was demoted too, unless the recorded failure of that one sorted after the stamp |
| PoolQueue.FairnessExactly | internal/providers/keys.go:565-605 | Some run selects a demoted endpoint again over an eligible one that was not demoted since, if and only if the recorded failure of the latter sorts after the stamp of the demotion |
| PoolQueue.FairnessByTheClock | internal/providers/keys.go:754-780 | In clock readings: fairness can fail if and only if both fall into one second and the digits of the later continue those of the earlier, or they are equal and the ids decide |
| PoolQueue.NeverFailedIsNotOvertaken | internal/providers/keys.go:574-579 | An endpoint without a recorded failure is never overtaken by one that was demoted |
| PoolQueue.EligibleByTheClock | internal/providers/keys.go:574-579 | The cooling test in clock readings, both directions: when an endpoint is still excluded after its cooldown has ended, and when it is eligible before |
| PoolQueue.NewestByTheClock | internal/providers/keys.go:765-772 | When the stamp of a demotion sorts after all recorded failures, in clock terms, both directions |
| PoolQueue.UnfairInsideOneSecond | internal/providers/keys.go:574-579 | Two concrete failures inside one second after which the later one is selected again first |
| PoolQueue.RoundRobin | internal/providers/keys.go:565-785 | With cooling failures only, the i-th round visits the endpoint at place i modulo n, from any start |
| PoolQueue.SteadyByTheClock | internal/providers/keys.go:754-785 | Which clock readings give stamps under which the rounds rotate, both directions |
| PoolQueue.RoundRobinByTheClock | internal/providers/keys.go:565-785 | The same rotation, from clock readings of the selections, marks and cooldown ends |
| PoolQueue.EachOncePerCycle | internal/providers/keys.go:565-785 | Any n consecutive rounds visit n different endpoints |
| PoolQuota.QuotaIsInvisible | internal/providers/quota_refresh.go:182-282 | Erasing all quota steps from a mixed run changes no answer to an inference selection and no routing column |
| PoolQuota.InferenceIsInvisible | internal/providers/keys.go:565-785 | Erasing all inference steps leaves every quota configuration unchanged |
| PoolQuota.StepKeepsSidecars | internal/providers/keys.go:200-321 | A step keeps every sidecar valid if and only if no quota write was overtaken by a change of its row |
| PoolQuota.RunKeepsSidecars | internal/providers/keys.go:108-381 | So does every run without such a write |
| Forwarder.Forward | internal/proxy/proxy.go:75-265 | Whatever others write before each selection and while each call is in flight: at most max(MaxRetries, default 3) calls, each to the endpoint selected at that moment, each earlier one retried; one mark per reply; a log numbered from 1 whose last row alone may be terminal; what the client gets; the code after the loop is unreachable |
| Forwarder.Settle | internal/proxy/proxy.go:132-252 | The one mark a reply leaves, whether it ends the request, and its log row |
| Forwarder.DistinctEndpoints | internal/proxy/proxy.go:105-254 | Attempts use pairwise different endpoints when every cooldown outlasts the request, as text, and nobody else writes to an endpoint after its mark |
| Forwarder.DistinctByTheClock | internal/proxy/proxy.go:105-254 | The same of every request Forward can serve, in clock readings: each cooldown asked for ends a second or more after the later selections |
| Forwarder.CoolsExactlyWhenRetried | internal/proxy/proxy.go:189-225 | A reply cools its endpoint if and only if another endpoint is worth trying, and only a success counts as one |
| Forwarder.TriedAgain | internal/proxy/proxy.go:105-254 | At the only endpoint of a provider, a second attempt goes to the same endpoint if and only if its cooldown has ended by then, as text |
| Forwarder.RetryAfterZero | internal/proxy/proxy.go:206-217 | Hence a 429 with Retry-After: 0 makes one request visit the same endpoint twice |
| OperatorLogin.ValidIdsAreCanonical | internal/operatorlogin/github.go:119-131 | The id test admits exactly the canonical notations of positive int64 numbers |
| OperatorLogin.ParseIds | internal/operatorlogin/github.go:119-131 | The loop collects the ids, or refuses all of them |
| OperatorLogin.IdsAreComplete | internal/operatorlogin/github.go:119-131 | Ids are accepted when all are valid, and then none is lost or added |
| OperatorLogin.AmendedKeepsSecret | internal/operatorlogin/github.go:132-148 | A secret is never kept for a different OAuth app, and an enabled configuration is complete |
| OperatorLogin.Tables.Put | internal/operatorlogin/github.go:186-219 | A flow is stored only for the current enabled revision and below the cap; a failed put changes nothing |
| OperatorLogin.Tables.Take | internal/operatorlogin/github.go:221-243 | A flow is returned once, to its browser, phase and current revision only, and is then gone |
| OperatorLogin.Tables.Save | internal/operatorlogin/github.go:107-160 | The whole settings row is replaced under a new revision, or nothing changes |
| OperatorProtocol.RunInv | internal/operatorlogin/github.go:107-406 | Every interleaving of Save, Start, Finish and Consume keeps the invariant |
| OperatorProtocol.LoginBinding | internal/operatorlogin/github.go:245-406 | Successful Consumes map injectively, through exactly one Finish each, to Starts with the same browser, form and revision; outstanding flows never exceed 1000 |
| OperatorProtocol.ApprovedUnderCurrentSettings | internal/operatorlogin/github.go:383-406 | An approval is given only under the current settings and for a user they allow, and spends its proof |
| OperatorProtocol.SaveInvalidates | internal/operatorlogin/github.go:148-160 | After a Save no token drawn before it is ever taken, in any later run and by any request in flight |
| OperatorProtocol.TakeSpendsProof | internal/operatorlogin/github.go:221-243 | A proof is spent by any take, even one that is then refused |
| OperatorProtocol.SecretBelongsToClient | internal/operatorlogin/github.go:133-136 | The stored secret belongs to the stored client id, however saves interleave |
| Base62.RandomBase62 | internal/idgen/base62.go:11-29 | The result is the encoding of exactly the first n accepted bytes, and no byte after them is read |
| Base62.PreimagesAreExact | internal/idgen/base62.go:22-24 | Which accepted byte sequences give an identifier |
| Base62.EquallyLikely | internal/idgen/base62.go:11-29 | Every identifier of length n has exactly 4^n of them |
| QuotaPaging.NormalizeAccounts | internal/providers/quota_refresh.go:514-542 | The loops over accounts and windows give the exact sums, wrapped once to int64 |
| QuotaPaging.FetchAccounts | internal/providers/quota_refresh.go:445-509 | At most fifty pages; an available result has the one-pass totals of all accounts read, and is returned if and only if the last page succeeded and declares at most that many |
| RegistrationLimiter.Limiter.Allow | internal/mcpoauth/server.go:1039-1051 | When a registration is admitted, and what the window and the log then are |
| RegistrationLimiter.SixtyPerWindow | internal/mcpoauth/server.go:1046-1048 | Each window admits at most sixty registrations |
| RegistrationLimiter.TwoWindowsPerMinute | internal/mcpoauth/server.go:1039-1051 | Any interval shorter than a minute contains at most 120 |
| RegistrationLimiter.LimiterBounds | internal/mcpoauth/server.go:1039-1051 | Both bounds hold of every limiter after any calls |
| EnvFile.WriteEnvBinding | cmd/guda-gateway-admin/commands.go:288-331 | The loop over the split text writes the new lines, and refuses a blank key |
| EnvFile.RewriteEffect | cmd/guda-gateway-admin/commands.go:300-331 | Matching lines become the binding, the others stay in place, a final newline may be added, and the binding is there |
| EnvFile.BindingMatches | cmd/guda-gateway-admin/commands.go:333-336 | A binding matches its own key if and only if the key does not start with a space |
| EnvFile.RewriteTwice | cmd/guda-gateway-admin/commands.go:288-336 | Rewriting twice is rewriting once if and only if the key does not start with a space |

## Assumptions of the token model

- Random tokens are new and the hash is injective: a token, code or verifier is represented by its digest, and a step that
  draws a random value draws one that was never drawn before. Ids come from AUTOINCREMENT and are not reused.
- The clock never goes back, also across restarts. A refresh reads it for the expiry check and again for the new rows,
  every other transaction once. The program takes one more reading for `created_at` of a minted key; here it is the same as
  that of the grant, and nothing but RevokeUnused looks at it.
- About the access expiry and the creation time of a migrated grant nothing is assumed.
- The conditions that SQL evaluates on text (the expiry in the guarded UPDATE of an invite, the cutoffs of RevokeUnused)
  are left open in the state machine: every answer is considered. `InviteExpiry` says what the first one really is,
  `TokenStore.Store.RevokeUnused` and `KeyAge` what the second is.
- History variables (`Past`, `Flow.origin`, `Secret.client`, `QuotaKey.entered`, the limiter's log) record what happened and
  are never read by the modelled code.
- `TokenBudget.InviteBudget` starts from a migrated database whose books balance (`LegacyBooks`): the grants and codes that
  carry an invite are among its counted redemptions. `TokenBudget.NewInstallation` is the special case without any.
- A migrated grant has the default scope and no audience, and its key is its own, as the UNIQUE constraint demands.

## Left out

- HTML, HTTP headers, cookies, JSON, the admin web interface and command dispatch: plumbing around the modelled steps.
- Cryptography: ciphertexts, hashes and constant-time comparison are taken as ideal; a stored secret always decrypts.
- URL parsing, redirect matching, client metadata and GitHub's answers: results are arbitrary.
- Names, labels, prefixes and fingerprints of gateway keys: only display data.
- Failing database statements outside the rollback of the exchange: a failed transaction changes nothing.
- The `resource` field of a verification request, which can only refuse more, and the direct bearer check of runtime routes,
  which accepts a subset of the keys that verification accepts.
- Expired authorization codes that no one presents; they are never purged by the modelled code.
- `TokenStore.Store` runs each transaction without interference; interleaving is the business of `TokenProtocol`.
- EndpointPool.KeyRepo.SelectEndpoint: does not model a key that fails to decrypt, and runs its SELECT and UPDATE together; the second writes only the time of last use.
- Forwarder.Forward: does not model a selection that fails for another reason than a missing key, nor a health mark whose statement fails; the program ignores the latter.
- QuotaConfig.RefreshAll: takes the listed rows as they were read, with the outcome of each refresh as an input.
- QuotaPaging.NormalizeAccounts: takes the floating-point amounts as already truncated to int64.
- OperatorLogin.ParseIds: collects a set, so the sorting of the stored list is not modelled.
- RegistrationLimiter.Limiter.Allow: one process and its lock; a restart begins with a fresh limiter.
- EnvFile.WriteEnvBinding: works on the text of the file; reading and writing the file is not part of this model.
- Usage counters, the pool view, health summaries and other provider quota parsers: only easy members.
