# The OAuth provider's credential lifecycle, verified

An OpenID Connect provider turns a parked authorization request into a code, the code into an
access token and a family of refresh tokens, and all of them into nothing when a user withdraws,
an administrator steps in, or a credential is replayed. Many requests do this at once: each
reads, keeps what it read, and later commits one transaction against tables that have moved on.
This project models that lifecycle and proves what holds in every interleaving.

## How it is organised

- `Prelude`, `Tables`: row datatypes, one per table, and the deployment constants.
- `Transactions`: what each database transaction does to the tables, with its guards in the
  order the code checks them and its refusals. A refused transaction changes nothing.
- `Answers`: what those transactions answer and write, said of rows and columns only, check by
  check and column by column, and that the transaction functions do so.
- `Provider`: the same transactions as the code writes them, a class over mutable tables whose
  methods check, write, roll back and loop; each is proved equal to its transaction function.
- `History`, `Machine`: the provider as a state machine. A pre-read is its own step and leaves a
  stale copy in the request; each transaction is one step at an issue time between the read and
  the present; clocks do not go back; names are fresh. `History` records what has happened,
  because tables forget.
- `Invariants`, `Closing`, `Growing`, `Minting`, the `Upkeep` modules and `Reachability`: one
  inductive invariant over all forty-one kinds of step. `Closing` is the main economy: every
  revocation, consumption and prune is an instance of one relation, so the invariant is carried
  over it once.
- `Runs`, `Births`, `Descent`, `Refusals`, `Containment`, `Withdrawal`, `Provenance`, `Precision`,
  `Isolation`, `Consent`, `SessionEnds`, `Shutdown`, `Introspection`, `Outbox`, `Pruning`: the
  theorems about whole runs. `Example` exhibits a run, so they are not about nothing.
- `GrantRace`, `LockOrder`, `LockCover`, `OidcPrune`: the compare-and-swap loop at one step per
  access, the lock order and the rows it covers, and the batched prune loop.
- `Scopes`, `Lists`, `Claims`, `TokenStatus`: the scope registry, its text encoding, claims, and
  the agreement of UserInfo and introspection.
- `BrowserFlow`, `RateLimit`, `OutboxDelivery`, `SigningKeys`, `TicketLedger`: the smaller state
  machines beside the provider.

## Model

| member | source | states |
|---|---|---|
| Reachability.NextKeeps | src/services/providerService.js:682-1298 | every step of every request, prune, logout and administrative write keeps the invariant that ties tables, stale copies held by requests in flight, and history together |
| Reachability.RunKeeps | src/services/providerService.js:682-1298 | so every state of every run, from empty tables, has the invariant |
| Example.TokenReachable | src/services/providerService.js:867-1017 | a run exists from empty tables to a refresh token that can be exchanged |
| Runs.StepOnward | src/services/providerService.js:970-981 | no step clears `usedAt`, `consumedAt` or a refresh token's `revokedAt`, changes a row's owner or family, or brings back a deleted row |
| Runs.RefreshRowMonotone | src/services/providerService.js:1244-1250 | a refresh row met at two points of a run has the same birth data and is no less used and no less revoked later |
| Runs.CodeRowMonotone | src/services/providerService.js:971-975 | likewise a code row and its `usedAt` |
| Runs.EventStep | src/services/providerService.js:682-1298 | every recorded event was recorded by exactly one step, which the whole-run theorems then name |
| Descent.RequestSettledOnce | src/services/providerService.js:720-726 | two steps of a run that issue a code or a denial for the same parked request are the same step |
| Descent.CodeRedeemedOnce | src/services/providerService.js:970-981 | two commits that redeem the same code are the same commit, although many requests may have read it unused |
| Descent.RefreshExchangedOnce | src/services/providerService.js:1244-1248 | with rotation on, two commits that exchange the same refresh token are the same commit |
| Descent.OneUsableToken | src/services/providerService.js:1244-1271 | in every reachable state a refresh family has at most one unused token, in both rotation modes |
| Descent.OneChild | src/services/providerService.js:1385-1403 | no refresh token is the parent of two others and no family has two roots: a family is a chain, not a tree |
| Descent.ChildNarrows | src/services/providerService.js:1082-1101 | a rotated token was used, and its child keeps user, client, browser session and auth time with no scope more (RFC 6749 section 6) |
| Descent.ChainNarrows | src/services/providerService.js:1082-1089 | along the whole chain, pruned ancestors included, scopes only shrink |
| Descent.TokenWithinCode | src/services/providerService.js:989-1003 | every refresh token descends from one redeemed code, shares its owner, client and browser session and stays within its scopes |
| Descent.OneFamilyPerCode | src/services/providerService.js:1385-1386 | two refresh families never descend from one code |
| Containment.RevokedFamilyStaysShut | src/services/providerService.js:1768-1801 | once revokeFamily has run for a family, every row it has or ever gets is revoked in every later state |
| Containment.NoExchangeAfterReplay | src/services/providerService.js:1068-1080 | and no exchange of one of its tokens commits later, even one that made its pre-read before the revocation (RFC 9700 section 4.14) |
| Closing.CodeFamilyRevoked | src/services/providerService.js:1803-1826 | revoking by browser session and client reaches every token of the family redeemed from the replayed code |
| Containment.ReplayedCodeStaysContained | src/services/providerService.js:910-934 | after a replayed code was refused, from the pre-read or from the lost race, its row stays used while retained and every token descended from it is revoked for good (RFC 6749 section 4.1.2) |
| Containment.NoRedemptionAfterReplay | src/services/providerService.js:973-1007 | and the code never issues tokens afterwards |
| Refusals.ReplayShutsFamily | src/services/providerService.js:1063-1078 | a presented refresh token that is another client's, was revoked, or with rotation was used: once that request is over, unless its process died, no row of the family is left unrevoked |
| Refusals.ReplayIsTaken | src/services/providerService.js:1063-1078 | and every such presentation, in any state, does set out to revoke the family |
| Refusals.ReadExactly | src/services/providerService.js:1056-1089 | a presented token goes on to the exchange exactly when it is the client's own, unrevoked, unexpired and with rotation unused, for its own scopes or for registered ones among them |
| Refusals.RevocationShutsFamily | src/services/providerService.js:1712-1729 | a client that revokes its own refresh token has the whole family revoked when it is answered (RFC 7009 section 2.1) |
| Refusals.LossShutsFamily | src/services/providerService.js:1183-1191 | a refused exchange has revoked the family when it is answered: with rotation whatever refused it, without unless all checks hold and the token merely can no longer be claimed |
| Refusals.LossIsTaken | src/services/providerService.js:1273-1287 | and with rotation an exchange for which a check, the claim or the session fails can only take that way |
| Refusals.RaceShutsFamily | src/services/providerService.js:1244-1248 | with rotation, a request that read a token which another one has used since can only be cut short, or revoke the family |
| Refusals.ReplayIsContained | src/services/providerService.js:930-932 | a client that presents its own used code again is answered only when the code is spent and every refresh token descended from it is revoked |
| Refusals.CodeReplayIsTaken | src/services/providerService.js:930-932 | and every such presentation does set out to contain the code |
| Refusals.RaceIsContained | src/services/providerService.js:971-1007 | a redemption that read a code which another one has used since can only be cut short, be refused because a check before the code fails or the row is gone, or contain the code |
| Refusals.RaceIsTaken | src/services/providerService.js:976-981 | and while the row is there and those checks hold, it can go on to contain it |
| Refusals.ForeignCodeIsBurned | src/services/providerService.js:878-891 | a code that another client presents is spent when that client is answered |
| Refusals.LoadedExactly | src/services/providerService.js:482-513 | completing starts exactly from an open request of an approved client, for its callback and challenge, and for what was ticked of its scopes if that is anything |
| Withdrawal.WithdrawalCutsLineage | src/services/providerService.js:1868-1927 | every token response for a user and client after a withdrawal descends from a code whose commit came after the withdrawal, even if the user consents again at once |
| Withdrawal.WithdrawnRefreshStaysDead | src/services/providerService.js:1886-1894 | a refresh token that existed at the withdrawal is revoked in every later state |
| Withdrawal.WithdrawnCodeStaysDead | src/services/providerService.js:1895-1898 | a code that existed at the withdrawal is spent in every later state |
| Provenance.RedemptionTraces | src/services/providerService.js:867-1003 | every redemption in a run goes back to the one commit that minted its code: same client, user, browser session, scopes and sign-in time; within the code's lifetime; with the verifier its request's challenge asks for; the callback still registered; client, account and per-client session still standing |
| Provenance.IssueAuthorized | src/services/providerService.js:682-771 | and that commit answered an open request the client had parked with this callback and challenge, for what was ticked of the scopes it asked for, on the user's own live browser session |
| Provenance.IssueWritten | src/services/providerService.js:711-771 | that commit wrote the code, the per-client session, the consumed request and the widened grant with these columns, and nothing else |
| Provenance.RefreshTraces | src/services/providerService.js:1385-1403 | every refresh token, however often rotated, goes back to such an authorization and exceeds it in nothing |
| Precision.StepFates | src/services/providerService.js:1768-1930 | in any run every step leaves every earlier refresh token, code and per-client session with one exact new row: `usedAt` or `revokedAt` stamped with the step's time if it was unset and nothing else changed, gone, seen, reopened under its old id, or bit for bit as it was |
| Precision.RevocationTraced | src/services/providerService.js:1776-1793 | a refresh token found revoked was revoked by one earlier step that is about it, and its `revokedAt` is that step's time |
| Isolation.StepIsolated | src/services/providerService.js:1768-2056 | a step that does not act for a user and client leaves their grant, refresh tokens, codes and per-client sessions exactly as they were and adds none; a revocation by browser session or by family therefore reaches only its owner's credentials |
| Isolation.RunIsolated | src/services/providerService.js:682-2056 | and so over any stretch of a run in which nobody acts for them and no prune runs |
| Precision.SpendingTraced | src/services/providerService.js:878-981 | a code found used was used by one earlier step that is about it (its redemption, a presentation by another client, a withdrawal, an account revocation), and its `usedAt` is that step's time |
| Transactions.CompletedScopes | src/services/providerService.js:790-801 | completing asks for a scope exactly when it was requested and, if the user selected, was ticked or is `openid` |
| Consent.GrantIsApproval | src/services/providerService.js:633-676 | in every reachable state a live grant holds exactly what was approved, or waived, since the last withdrawal |
| Consent.ApprovedIsTicked | src/services/providerService.js:790-801 | where nothing was authorized on a waiver alone, what was approved is exactly the requested scopes that the user ticked since the last withdrawal, and `openid` where it was requested |
| Consent.GrantIsConsent | src/services/providerService.js:695-710 | and a live grant holds exactly that, no scope more and no scope less |
| Consent.RequiredGrantIsConsent | src/services/providerService.js:695-710 | in particular for a client whose registration required consent in every state of the run |
| Consent.CodeWithinGrant | src/services/providerService.js:695-710 | the commit that mints a code leaves a live grant that covers it |
| Consent.CodeWithinApproval | src/services/providerService.js:695-710 | so every code is within what had been approved when it was minted |
| Consent.TokensWithinGrant | src/services/providerService.js:963-969 | every token response is within what is approved at the instant of its commit |
| Shutdown.DisabledMeansDead | src/services/accountService.js:767-783 | in every reachable state a disabled account has no unrevoked refresh token, unused code or unrevoked per-client session |
| Shutdown.StatusWrittenIsActive | src/services/accountService.js:404-440 | what confirming an address or signing in writes to an account is always ACTIVE |
| Shutdown.ShutClientStaysDead | src/services/clientService.js:486-508 | once the third write of setStatus(DISABLED or REJECTED) is done and until somebody approves the client, it has no unrevoked refresh token or per-client session, whatever exchanges and other shutdowns interleaved |
| Introspection.ActiveIffExchanges | src/services/providerService.js:1662-1701 | in every reachable state introspection of a refresh token says active exactly when exchanging it without a scope parameter at that instant would commit and all its scopes are registered |
| Introspection.IntrospectionPredictsExchange | src/services/providerService.js:1056-1297 | so where clients may only ask for registered scopes the two always agree (RFC 7662 section 2.2) |
| SessionEnds.EndedSessionIsRefused | src/services/providerService.js:1510-1528 | from a logout, an end of sessions, a withdrawal, an account revocation, a containment, a revocation by access token or the end of a client on, UserInfo refuses every access token of the sessions it reaches and introspection calls it inactive, until the user authorizes the client again |
| SessionEnds.ReopenedIsNamed | src/services/providerService.js:730-752 | and that authorization opens the session again under the id that earlier tokens name |
| SessionEnds.ResponseIsOnRecord | src/services/providerService.js:1345-1364 | every token response carries an access token on record that names the published session, for the same client, user, scopes and time |
| Outbox.ToldIsDown | src/services/providerService.js:1900-1927 | the notices a commit queues are for exactly the sessions it took from live to revoked whose client has an endpoint |
| Outbox.OutboxConserved | src/services/providerService.js:1989-2056 | over any run the queued rows for a published sid are as many as the endSessions and revokeGrant commits that took it down, addressed to its client about its user, and nothing else is queued |
| Outbox.PublishedNotice | src/services/backchannelService.js:49-75 | in particular for every session that is published now |
| Outbox.SidsStayUnique | src/services/providerService.js:730-752 | published session ids stay unique in every reachable state, which the Provider methods below rely on |
| Pruning.OidcPruneIsSafe | src/services/providerService.js:2073-2123 | interleaved with exchanges whose issue times are in commit order, a batch never deletes a per-client session that an unexpired access token, refresh token or code names, whichever keys it had selected |
| Pruning.UsedCodeRetained | src/services/providerService.js:2133-2149 | a used code is deleted only when everything its redemption minted directly has expired |
| Pruning.PrunesSpareUsable | src/services/providerService.js:2131-2153 | no background deletion takes a request, code or refresh token that can still be used |
| OidcPrune.Page | src/services/providerService.js:2082-2090 | a page holds the first matching ids in ascending order, all of them when it is short |
| OidcPrune.Store.PruneStale | src/services/providerService.js:2073-2123 | run alone, the id-cursor loop terminates having deleted exactly the stale rows without a live browser session, and counted each once |
| Answers.IssueCodeAnswered | src/services/providerService.js:682-771 | the transaction model of completing an authorization answers and writes so |
| Answers.RedeemAnswered | src/services/providerService.js:955-1003 | likewise of redeeming a code: replayed exactly when the checks before it hold and the current row is there and used, expired exactly when it is gone or unused past its time |
| Answers.ExchangeAnswered | src/services/providerService.js:1103-1275 | likewise of exchanging a refresh token, in both rotation modes |
| Provider.Provider.UpsertGrant | src/services/providerService.js:633-676 | under the row lock the grant is live, has a scope exactly when it is new or was held live, and its version rises by one; no other grant changes |
| Provider.Provider.IssueCode | src/services/providerService.js:682-771 | the whole transaction: the checks in order, the consumed request, the per-client session and the code, or a rollback of the widened grant with the refusal that applied |
| Provider.Provider.CompleteAuthorization | src/services/providerService.js:682-771 | which check refuses, in columns and in order; a refusal changes nothing and a commit writes exactly the grant, request, session and code columns it should |
| Provider.Provider.DenyAuthorization | src/services/providerService.js:819-829 | a denial claims an open, unexpired request or changes nothing |
| Provider.Provider.IssueTokens | src/services/providerService.js:1379-1410 | a refresh token is added exactly when the client may refresh and asked for `offline_access`, or is first-party and did not ask for `openid`; with these columns, claimable until its lifetime is over; every other token and session is unchanged and the session is touched |
| Provider.Provider.ExchangeCode | src/services/providerService.js:955-1003 | which check refuses, in columns and in order, against current rows with a stale copy of the code; when the earlier checks hold it is a replay exactly when the current row is there and used; a refusal rolls back the claim |
| Provider.Provider.ExchangeRefresh | src/services/providerService.js:1103-1275 | both rotation modes: which check refuses, in columns and in order, what a commit writes, and a rollback of the claim otherwise |
| Provider.Provider.RevokeFamily | src/services/providerService.js:1776-1793 | while its client and user exist no row of the family stays unrevoked; its rows keep everything else, earlier marks included, and every other row is unchanged |
| Provider.Provider.RevokeTokensForSession | src/services/providerService.js:1803-1826 | no refresh token of the browser session and client can be claimed at any later time and their session is not live; every other token and session is unchanged |
| Provider.Provider.Enqueue | src/services/backchannelService.js:49-75 | one notice is queued exactly when the client has an endpoint |
| Provider.Provider.EnqueueAll | src/services/providerService.js:1912-1927 | the loop queues one notice for each live session that owes one, and counts them |
| Provider.Provider.RevokeGrant | src/services/providerService.js:1868-1930 | exactly for a live grant of known owners: the grant is withdrawn and nothing of the pair stays unmarked, and every other grant and credential is unchanged; notices as owed |
| Provider.Provider.EndSessions | src/services/providerService.js:1989-2058 | exactly for the user's own session: it goes, their per-client sessions under it end, all others are unchanged, and the notices are queued and counted |
| Provider.Provider.LogoutSession | src/services/sessionService.js:146-170 | the browser session goes, no client's session under it is live, and no other session changes |
| Provider.Provider.RevokeAllCredentials | src/services/accountService.js:675-726 | nothing of the account is live and none of its browser sessions is left; every other user's rows are unchanged |
| Provider.Provider.SetAccountStatus | src/services/accountService.js:767-783 | disabling leaves nothing of the account live, any other status leaves every credential as it was; the account is usable exactly when not disabled, and nobody else is affected |
| Provider.Provider.ResetPassword | src/services/accountService.js:531-563 | exactly for an account that is not disabled and an unused link: the account is active with nothing live, nobody else is touched; otherwise everything is rolled back |
| Provider.Provider.SetClientStatus | src/services/clientService.js:486-508 | run alone, disabling or rejecting leaves the client unapproved with no unrevoked refresh token or per-client session, any other status revokes nothing, and other clients are unaffected |
| Provider.Provider.PruneRequests | src/services/providerService.js:2141-2143 | every later claim of a request is answered as if nothing had been pruned, and what is left could still be claimed just before the cutoff |
| Provider.Provider.PruneCodes | src/services/providerService.js:2144-2151 | every later claim of a code is answered as if nothing had been pruned; what is left could still be claimed just before the cutoff or detects a replay within the retention window |
| Provider.Provider.PruneRefreshTokens | src/services/providerService.js:2152 | every later claim of a refresh token is answered as if nothing had been pruned; used and revoked rows stay until they expire, so a replay is still detected |
| GrantRace.ClaimSeesCurrent | src/services/providerService.js:655-667 | equal id and version mean an unchanged row, so a write that claims its row merges into the current scopes and never into stale ones |
| GrantRace.WriteIsAtomicUnion | src/services/providerService.js:633-676 | among any number of widenings, withdrawals and deletions stepped access by access, a successful call takes effect at its write as one indivisible union, and a losing write changes nothing |
| GrantRace.NothingLost | src/services/providerService.js:633-676 | the grant is always the union of the widenings since it was last withdrawn or deleted, and a call has returned exactly when it is among them |
| GrantRace.FourAttempts | src/services/providerService.js:634-675 | a call takes effect at most once and gives up after four attempts without having had any |
| GrantRace.UpsertGrant | src/services/providerService.js:633-676 | the loop itself: however others interfere within each attempt, the row ends as others left it with this widening applied once on top, or untouched after four losses |
| GrantRace.UnionIsWidened | src/services/providerService.js:638-663 | that union is the widening the transactions use |
| LockOrder.PlansAscend | src/services/providerService.js:120-125 | each of the ten credential transitions, and any write of one statement, takes its row locks in the order Client, User, Grant, Session, Request, Refresh, Code, OIDC |
| LockCover.StepLocked | src/services/providerService.js:120-125 | in any run every row that a step changes or deletes, cascades of a removed client aside, is among the rows its plan locks |
| LockOrder.NoDeadlock | src/services/providerService.js:120-125 | in no reachable state of any set of these transactions does a chain of waiting close into a circle |
| LockOrder.SomeoneMoves | src/services/accountService.js:687-704 | and while any of them is open, one of them can go on |
| Lists.DecodeEncode | src/lib/lists.js:16-29 | encoding fails exactly when a trimmed member contains the delimiter, and otherwise decoding gives back the members, trimmed, without empty ones and without repetitions; for scopes and for URIs |
| Lists.EncodeDecode | src/lib/lists.js:16-29 | whatever text a column holds, writing back what was read loses only repetitions |
| Lists.StorageKeeps | src/lib/lists.js:16-29 | a list of distinct, trimmed members without the delimiter survives storage unchanged |
| Scopes.CreateRegistry | src/lib/scopes.js:165-214 | building succeeds exactly when every custom scope is acceptable and no two claim one introspection boolean; then the registry is the standard scopes and after them one definition for each custom name, where it first appeared, with the rule and the boolean of its last entry, and nothing else; names and booleans are unique |
| Scopes.ParseGrants | src/lib/scopes.js:250-263 | parsing grants exactly the registered scopes of the request, in canonical form, and strict parsing refuses a request that names another |
| Scopes.ParseRefuses | src/lib/scopes.js:222-263 | parsing refuses exactly a text over the limit, an illegal token and, if strict, an unregistered scope |
| Scopes.ParseEncoded | src/lib/scopes.js:250-263 | a canonical list parses back to itself from its own text |
| Scopes.SortSorts | src/lib/scopes.js:266-274 | sorting keeps the members, drops repetitions and orders the rest |
| Scopes.SortPlaces | src/lib/scopes.js:266-274 | registered scopes come in the order of the registry and before all others, which are collated |
| Scopes.OrderedUnique | src/lib/scopes.js:266-274 | only one arrangement of the members is in order, so the canonical form does not depend on the sorting algorithm |
| Scopes.SortCanonical | src/lib/scopes.js:266-274 | two lists have the same canonical form exactly when they have the same members |
| Scopes.SortIdempotent | src/lib/scopes.js:266-274 | sorting twice is sorting once |
| Scopes.SortedSurvivesStorage | src/lib/lists.js:16-29 | the canonical form of legal scopes survives the text column |
| Scopes.CoversIffNothingBeyond | src/lib/scopes.js:277-285 | a grant covers a request exactly when nothing is beyond it, which is inclusion of the sets the transactions use |
| Scopes.AssertAllowedForUser | src/lib/scopes.js:291-298 | passes exactly when every rule of a requested scope allows the account, and otherwise names the first that does not |
| Scopes.IntrospectionAuthorityFor | src/lib/scopes.js:348-369 | each boolean says whether its scope was granted and still holds, and activity fails exactly on a lapsed scope without a boolean; a rule that throws counts as lapsed |
| Scopes.AuthorityUnique | src/lib/scopes.js:348-369 | scopes and account determine the answer |
| Claims.ClaimsFor | src/lib/scopes.js:309-338 | a claim has the value that the last granted scope has for it, produced before released, and none exactly when no granted scope releases or produces it |
| Claims.IssuerSpeaksForItself | src/lib/scopes.js:309-338 | no configuration asserts a reserved claim or a value about the account that the account record does not have |
| Claims.BuildUserClaims | src/services/providerService.js:1456-1475 | every claim about the account is the account's, a synthesized address is never shown, and an address is reported verified exactly when it was and is real |
| TokenStatus.UserInfo | src/services/providerService.js:1486-1530 | UserInfo accepts exactly when the token has `openid`; the account is not disabled; client, deployment and a live grant still have its scopes; every rule of a granted scope allows them; and the session it names by id is unrevoked and its own user's and client's |
| TokenStatus.IntrospectAccessToken | src/services/providerService.js:1605-1641 | introspection answers active exactly to the token's own client while the same columns hold, except that a lapsed scope with a boolean only turns that boolean false |
| TokenStatus.NeverContradict | src/services/providerService.js:1510-1530 | for any token and state UserInfo accepts exactly when the token has `openid`, its own client is told it is active and every live-authority boolean of a granted scope is true |
| TokenStatus.OthersLearnNothing | src/services/providerService.js:1613-1614 | a client other than the token's own is told it is inactive, whatever its state |
| BrowserFlow.ParsePrompt | src/services/providerService.js:76-88 | known prompts only, and `none` only alone |
| BrowserFlow.PromptsSurviveParking | src/services/providerService.js:459-513 | prompts come back from the parked request as they went in |
| BrowserFlow.LoginExactly | src/services/providerService.js:533-577 | a signed-in user is sent to log in exactly when an unmet prompt or max_age demands it and the sign-in was not made for this request |
| BrowserFlow.DecidedExactly | src/services/providerService.js:533-601 | for a signed-in user the decision is exactly: refused if disabled, login if the sign-in is stale, refused if a scope is not allowed, consent if it is insisted on or required and not on record for every scope, and otherwise a code; with prompt=none the two questions become errors |
| BrowserFlow.ReauthenticationSuffices | src/services/providerService.js:549-577 | once the user has signed in later than the request was parked, no decision is `login` |
| BrowserFlow.NoneNeverShowsAPage | src/controllers/oauthController.js:94-235 | a request with prompt=none never reaches a login or consent page from its arrival to its answer |
| BrowserFlow.CodeIsAskedFor | src/controllers/oauthController.js:94-311 | a browser that comes to the client with a code has submitted the consent form, or its last decision found the account enabled, the sign-in young enough, every scope allowed and consent neither insisted on nor missing |
| BrowserFlow.ReauthenticationTerminates | src/controllers/oauthController.js:170-311 | after a sign-in made later than the request, at most three more requests follow, the consent page and its form included, and the third one is answered |
| BrowserFlow.GoesRoundIffLoops | src/controllers/oauthController.js:196-199 | from the continue step a signed-in browser can be sent round without end and without a new sign-in exactly when the account is enabled, the request is still alive, the session is no younger than the parked request, and `login` is demanded or max_age is exceeded before the request expires; otherwise at most three requests follow |
| BrowserFlow.LoopsExactly | src/controllers/oauthController.js:116-136 | in a run from the client's first request, with sign-outs, other tabs and the registration page in between, that is: the session began no later than the parking and does not meet the demand; and it is older than the request only if that request came without the session cookie |
| BrowserFlow.LoopReached | src/controllers/oauthController.js:94-199 | and each of these happens: for every demand and every session that does not meet it, however old, there is a run that reaches the continue step with it, goes on for as many requests as one likes and is never answered; with a session older than the request nobody signs in on the way |
| BrowserFlow.Browser.Authorize | src/controllers/oauthController.js:94-120 | the first decision, for the session whose cookie came with the request or for nobody; an error goes to the client at once |
| BrowserFlow.Browser.Park | src/controllers/oauthController.js:122-148 | store the request, then leave for the page the decision names |
| BrowserFlow.Browser.LoginPage | src/controllers/accountController.js:116-133 | a browser with a session is sent on at once, unless the address of the page asks for a new sign-in |
| BrowserFlow.Browser.RegisterPage | src/controllers/accountController.js:37-54 | only a browser without a session gets to the registration page, and by its link to a plain login page; any other leaves the flow for its account |
| BrowserFlow.Browser.ContinueAuthorization | src/controllers/oauthController.js:170-235 | reload, decide again and leave |
| BrowserFlow.Browser.ConsentPage | src/controllers/oauthController.js:239-249 | the consent page reloads the request, and shows its form only to a signed-in user |
| BrowserFlow.Browser.Submit | src/controllers/oauthController.js:277-311 | the consent form ends the flow, at the client only when the completion succeeds |
| RateLimit.AtMostLimitPerWindow | src/middleware/rateLimit.js:56-73 | a key is allowed at most `limit` hits in each window |
| RateLimit.AtMostTwiceLimit | src/middleware/rateLimit.js:19-23 | in any half-open interval as long as a window a key is allowed at most twice the limit less one |
| RateLimit.TwiceLimitIsTight | src/middleware/rateLimit.js:19-23 | some hits reach the bound for every limit and every window, except exactly when a window is a single millisecond and the limit more than one |
| RateLimit.RemainingIsExact | src/middleware/rateLimit.js:66-71 | an answer's `remaining` is how many more hits its window allows |
| RateLimit.RetryAfterSuffices | src/middleware/rateLimit.js:56-73 | a key left alone for the advertised seconds is allowed again |
| RateLimit.RetryAfterNeeded | src/middleware/rateLimit.js:66-71 | and a blocked key stays blocked until less than a second of it is left |
| RateLimit.KeysAreIndependent | src/middleware/rateLimit.js:56-73 | hits on one key are answered as if it were alone |
| RateLimit.ServedWithinLimit | src/middleware/rateLimit.js:47-78 | the bound over any interleaving of keys |
| RateLimit.Counter.Sweep | src/middleware/rateLimit.js:50-54 | drops exactly the windows that are over |
| RateLimit.Counter.Hit | src/middleware/rateLimit.js:56-73 | answers from the live window whether or not it swept first |
| RateLimit.Counter.Serve | src/middleware/rateLimit.js:47-78 | any sequence of hits is answered as by a counter that never sweeps |
| RateLimit.Counter.Meter | src/middleware/rateLimit.js:134-160 | both keys of a request are counted whatever the first one answers, both must pass, and the wait is that of the first one that does not, after which that key passes again |
| OutboxDelivery.Outbox.Enqueue | src/services/backchannelService.js:62-73 | a queued row starts unattempted under a fresh id with its `jti` |
| OutboxDelivery.Outbox.FindPending | src/services/backchannelService.js:179-189 | a flush takes the oldest undelivered rows with attempts left and the retry interval over, all of them when it is not full |
| OutboxDelivery.Outbox.Deliver | src/services/backchannelService.js:112-172 | one POST with the row's own token, or none when the endpoint is gone; the row gains exactly the attempt, its time and the outcome |
| OutboxDelivery.Outbox.Flush | src/services/backchannelService.js:179-202 | each due row ends as one delivery leaves it, the others are untouched, the POSTs made are one for each row with an endpoint in the order taken, `delivered` counts the acknowledged ones, and no row is due again before its retry interval is over |
| OutboxDelivery.Outbox.PruneDelivered | src/services/backchannelService.js:205-215 | exactly the rows go that were delivered, or ran out of attempts, before the cutoff; what is due at any time stays due |
| OutboxDelivery.Outbox.PostsAreBounded | src/services/backchannelService.js:112-202 | over any sequence of operations a notice is POSTed at most maxAttempts times, always with one `jti`, never after it was acknowledged, and never sooner than the retry interval |
| SigningKeys.BootsConverge | src/services/keyService.js:98-160 | however the reads, upserts and re-reads of first boots interleave, one bootstrap row exists and every ready process signs with it |
| SigningKeys.KeyService.EnsureKeyRing | src/services/keyService.js:116-160 | a loaded ring holds exactly the keys that are active or not yet past their retirement, and its active key is in the table |
| SigningKeys.KeyService.Sign | src/services/providerService.js:1333-1355 | a token is signed by the active key and joins the tokens that must stay verifiable |
| SigningKeys.KeyService.Rotate | src/services/keyService.js:167-183 | with an overlap of at least a token's lifetime, the new key becomes the active one, the old one is retired for the overlap, no other row changes and every key an unexpired token needs stays |
| SigningKeys.KeyService.PruneExpired | src/services/keyService.js:185-190 | exactly the retired keys past their time go, which changes no freshly loaded ring |
| SigningKeys.KeyService.UnexpiredVerifies | src/services/keyService.js:70-78 | after any rotations, prunes and reloads every unexpired token's key is in a freshly loaded ring |
| TicketLedger.PrunableIsRejected | src/services/externalIdentityService.js:148-151 | for any expiry, given in seconds as any positive real number: a ledger row that may be deleted always belongs to a ticket that is rejected anyway, exactly when the expiry is a whole second or lies in the last millisecond of one |
| TicketLedger.Ledger.Accept | src/services/externalIdentityService.js:380-383 | verify and consume: accepted exactly when the signed times hold and (provider, jti) is not on record; the row keeps the expiry truncated to milliseconds |
| TicketLedger.Ledger.AcceptedOnce | src/services/externalIdentityService.js:230-246 | such a ticket is accepted at most once over any run with pruning, and a reused `jti` only after the first ticket expired |
| TicketLedger.Ledger.PruneConsumedTickets | src/services/externalIdentityService.js:478-480 | exactly the rows whose stored expiry has passed go, and the ledger still accepts no ticket with such an expiry twice |
| TicketLedger.UnalignedReplays | src/services/externalIdentityService.js:148-151 | every other ticket that is acceptable at all is accepted twice in some run of the ledger |

## Notes on the code

- `OidcSession.revokedAt` and `Grant.revokedAt` are not monotone: a later authorization clears
  them. `Runs.StepOnward` is about the columns that are, and `SessionEnds.EndedSessionIsRefused`
  holds until such an authorization: it reopens the session under its old id, and an access token
  from before that has not expired is accepted again.
- A used code is a replay detector only for what its redemption minted directly. Each rotation
  restarts the refresh lifetime, so a descendant can outlive the row; `Pruning.UsedCodeRetained`
  says no more than holds.
- `verifyEmail` and `authenticate` write a status that they decided from an earlier read, so an
  account can leave DISABLED without an administrator. The machine has these two steps, and
  `Shutdown.DisabledMeansDead` is about states in which the status is DISABLED.
- src/services/externalIdentityService.js:477 calls the ledger prune safe to schedule. It is for
  tickets whose expiry is a whole second or lies in the last millisecond of one
  (`TicketLedger.PrunableIsRejected`, `TicketLedger.Ledger.AcceptedOnce`); any other acceptable
  ticket can be accepted twice (`TicketLedger.UnalignedReplays`), because the check compares the
  signed number with whole seconds and the ledger compares it, truncated, with milliseconds.
- src/controllers/oauthController.js:196-199 sends the user to log in again without asking the
  login page to insist, unlike line 134, and the login page bounces a browser that has a session;
  the guard that src/services/providerService.js:534-549 adds against this does not always end it.
  Where `prompt=login` or max_age asks for more than that session, the browser goes round until
  the request expires. `BrowserFlow.LoopsExactly` says when, `BrowserFlow.LoopReached` exhibits
  every case. The plain one: a client posts its request, which lines 88-95 allow and
  src/middleware/csrf.js:17-24 says is cross-site and carries no cookie of the issuer; the
  `SameSite=Lax` session cookie (src/services/sessionService.js:54) stays behind, the signed-in
  user is taken for nobody and sent to a plain login page, and the requests after that bring the
  cookie again. A request that does bring it is only caught when a session begins in another tab
  while the request is being decided, or in the millisecond in which it is parked.
- The registration page is no way round: it links back to a plain login page
  (src/views/register.ejs:75), but src/controllers/accountController.js:38 sends a browser with a
  session to its account first (`BrowserFlow.Browser.RegisterPage`).
- A delivery to a client without an endpoint sets `deliveredAt`, counts as failed and records no
  attempt (src/services/backchannelService.js:113-120); `OutboxDelivery.Delivered` does the same.

## Left out

- Cryptography, JWT and JWS bytes, scrypt, PKCE hashing: signatures, hashes and random values are opaque, injective and fresh; a presented verifier matches, differs or is absent.
- HTTP, Express, views, cookies, CSRF, mail, audit writes, configuration parsing, listing and search: plumbing.
- URL parsing in src/lib/uri.js: "this redirect is registered" is membership in a set.
- The database engine: transactions are atomic, unique keys and cascades hold. Isolation anomalies are not modelled.
- One-time mail tokens (password reset, email verification): in the machine only their effect on the account is a step.
- The wrong-redirect and PKCE checks before a code exchange's transaction: a request they refuse changes nothing. The PKCE check inside the transaction is modelled.
- The lock loop of src/services/accountService.js:652-673: it is a compare-and-swap whose success has no effect but the lock; `LockOrder` takes the lock as given.
- LockOrder.PlansAscend: the rows of one multi-row statement are taken in key order, and foreign-key locks are not modelled; the database promises neither order.
- LockCover.StepLocked: the cascade of a removed client is outside it, and a plan may lock rows that its step does not write; that a plan's statements come in the listed order is read off the code.
- Pruning.UsedCodeRetained: does not cover tokens rotated from the redemption's refresh token, because the retention window does not.
- Pruning.OidcPruneIsSafe: assumes that issue times do not decrease in commit order; a request that waits long between its clock reading and its commit is outside it.
- Outbox.OutboxConserved: counts rows ever queued; their delivery and deletion are in OutboxDelivery, which has one flusher.
- SigningKeys.KeyService.Rotate: one step, by one process; concurrent rotations, and a second process that still signs with a ring cached before a rotation, are not serialized by the code either. Keys from the environment are fixed and not modelled.
- TicketLedger.Ledger.Accept: verify and consume are one step, the clock counts whole milliseconds, a ticket's numbers are reals rather than doubles, and the checks on issuer, audience, subject, state and signature are not modelled.
- BrowserFlow.Browser.Submit: typed-in addresses are not modelled; a browser follows the links and redirects it is given, and sends its cookie with every request after the first.
- Scopes.CreateRegistry: the syntax and the reserved names of an entry's claims are one flag, `legal`.
- Claims.Definition: the value of a claim is text, a flag or a number, and what `claimsFrom` returns is a parameter.
- Creating, finding and touching browser sessions (src/services/sessionService.js:86-218): machine steps that add, extend or drop a row, without the cookie and the sliding-expiry rule.
- Account linking and unlinking beyond the ticket ledger, dynamic registration and static client synchronisation: they write clients and accounts, which the machine allows at any time with any content.
