# Identity server: a verified model

The server issues OAuth 2.0 and OpenID Connect tokens, keeps organizations with
roles and members, limits request rates and registers passkeys. This project
models its stateful protocols and its hand-written codecs in Dafny and proves
what they keep over all runs and all inputs. `dafny verify dfyconfig.toml`
checks everything.

## How it is laid out

| files | what they model |
|---|---|
| `Common.dfy`, `Scopes.dfy`, `Bytes.dfy` | shared vocabulary, scope strings, big-endian numbers |
| `RefreshTokens.dfy` | rotating refresh-token families with reuse detection |
| `OAuthRuns.dfy` | consent, codes, grants, the device grant and minting as one transition system |
| `Provenance.dfy`, `SingleUse.dfy`, `FamiliesInRuns.dfy` | what every interleaving of that system keeps |
| `ConcurrentExchanges.dfy` | exchanges side by side, as concrete runs |
| `AfterRevocation.dfy`, `LateTokens.dfy` | what a revocation does not reach, in both directions |
| `OAuthSteps.dfy` | exactly when each step of that system is taken and what it changes, said of the tables alone |
| `OAuthTables.dfy`, `DevicePolling.dfy` | the endpoints as methods on tables; the SDK's polling loop against the server |
| `AccessTokens.dfy` | signing keys, minting, revocation and validation of access tokens |
| `AccessRevocation.dfy` | the revocation endpoint; access tokens a revocation does not reach |
| `ServerRuns.dfy` | both systems as one: accepted tokens and what users approved |
| `Orgs.dfy`, `Ownership.dfy`, `OrgPermissions.dfy` | organization handlers as steps, and what every sequence of them keeps |
| `OrgSteps.dfy`, `OrgHandlers.dfy` | exactly when each handler goes through and what it changes; the handlers as methods |
| `RateLimit.dfy` | the in-memory limiter and the Redis script |
| `Der.dfy`, `EcdsaDer.dfy`, `Pkcs8.dfy`, `Cose.dfy`, `AuthenticatorData.dfy` | binary codecs |
| `AuthorizeUrl.dfy` | percent-encoding and the authorize URL |

Protocols are transition systems. A state holds the tables, a clock, the
handlers in flight with the rows they have read, and a history of what happened.
`Apply` (in `Orgs.dfy`, `Perform`) is one atomic step and does nothing when its
guard fails; theorems quantify over every sequence of steps. Code that updates
rows, buffers or counters in place is also given as methods that are proved
against the functions the theorems are about.

## Assumptions

- One SQL statement, or one transaction, is one step. The read-only statements
  of one guard are taken together, as is one whole call of the bearer-token check.
- Organization handlers are one step each; token exchanges, refreshes, grant
  upserts, device polls that find an approval, key rotation and minting are not.
- Application and database share one clock that never goes back.
- A poll of a pending device code is one step. With the row read and the poll
  time written apart, two polls at the same instant could both be told to wait.
- Random identifiers and tokens are fresh, and hashing is injective, so a token
  is named by its row. S256 is an arbitrary function. A JWT verifies under a
  key exactly when that key signed it.
- Inserts that a foreign key would refuse (a row for a client or user deleted a
  moment ago) go through in the model, which only adds states.
- The server is a release build, in which a 32-bit counter wraps around.
- Redis keeps time in milliseconds and drops a key once its timeout has passed,
  not in the millisecond it falls due. A request there is a tie.
- A timer of 0 ms takes 1 ms.

## Where the code and its comments differ

- Users "may also leave" an organization (apps/api/src/orgs/mod.rs:827-828), but
  leaving takes the permission to remove members: `Ownership.LeavingNeedsPermission`
  gives the exact condition and `Ownership.SomeMemberCannotLeave` a run.
- The role of an invitation "may have been deleted"
  (apps/api/src/orgs/mod.rs:1178), but the foreign key of the invitation keeps
  it: deleting an invited role fails as a database error, and the fallback to
  Member is dead code (`Ownership.AcceptanceGivesTheOfferedRole`).
- The revocation endpoint requires the presenting client to own the token
  (apps/api/src/oidc/mod.rs:890), and checks that for refresh tokens only: an
  access token is revoked by its `jti` whoever presents it.
  `AccessRevocation.OwnershipIsKeptExactly` says exactly when a call keeps to
  ownership, `AccessRevocation.SomeClientEndsAnothersToken` gives a run.
- A grant that was revoked and approved again stays revoked, because the upsert
  never clears the mark: consent is asked every time (`Provenance.RevokedGrantIsNeverReused`).
- Revoking a grant, or all of a user's tokens on a password reset or change, is
  not the end of "all OAuth access/refresh tokens" (docs/threat-model.md:31): a code
  issued before still yields a live refresh token, as does an approved device code
  and an exchange under way. `LateTokens.GrantRevocationIsFinalExactly` and
  `LateTokens.UserRevocationIsFinalExactly` give the exact condition,
  `LateTokens.SomeTokenOutlivesRevocation` and
  `LateTokens.SomeTokenOutlivesUserRevocation` a run. Likewise an access token that
  was signed before and is recorded after stays valid:
  `AccessRevocation.UserRevocationReachesExactly` gives the exact condition,
  `AccessRevocation.SomeTokenOutlivesUserRevocation` a run.
- `upsert_grant` says it merges into the stored set (apps/api/src/oidc/mod.rs:1750),
  but it reads and writes in two statements, so of two exchanges at once the later
  write can undo the earlier: `Provenance.StoredScopeSurvives` gives the exact
  condition, `ConcurrentExchanges.SomeApprovedScopeIsLost` a run.
- `upsert_grant` does not always store the union: a request that already contains
  the stored scopes leaves the row as it was (`Provenance.UpsertBounds`,
  `Provenance.SomeUpsertIsNotTheUnion`).
- The fallback limiter is not the script once a window sees 2^32 requests
  (`RateLimit.MemRefinesRedis`, `RateLimit.SomeWindowWraps`), nor at a tie
  (`RateLimit.AgreeUnderEveryLimitExactly`, `RateLimit.SomeTie`).
- `transfer_ownership` does not check that the calling owner is active; by
  `Ownership.OneOwnerPerOrganization` the owner always is.

## Model

| member | source | states |
|---|---|---|
| `Scopes.ParseKeepsSupportedWords` | apps/api/src/oidc/mod.rs:1582-1592 | a parsed scope list holds exactly the supported words of the request and is never empty |
| `Scopes.ParseUndoesJoin` | apps/api/src/oidc/mod.rs:1582-1592 | asking for a list of supported scopes joined by spaces yields that list in order |
| `Scopes.WordsTakeWord` | apps/api/src/oidc/mod.rs:1582-1592 | a word of a scope text ends at the next whitespace character or with the text |
| `Scopes.WordsSkipWhitespace` | apps/api/src/oidc/mod.rs:1582-1592 | leading whitespace of any kind and length does not count |
| `Scopes.SplitUndoesJoin` | apps/api/src/oidc/token.rs:282-286 | validation reads back from the `scope` claim exactly the scopes a token was minted with |
| `RefreshTokens.RefreshTokenStore.IssueRefreshToken` | apps/api/src/oidc/token.rs:172-195 | a new token is live, for its request and the whole configured lifetime, and a chain of its own; no other row changes and every other chain stays one |
| `RefreshTokens.RefreshTokenStore.RotateRefreshToken` | apps/api/src/oidc/token.rs:479-553 | exactly when a possibly outdated row is exchanged, refused or found reused; the successor is live for a lifetime of its own, for the same grant, the presented row is revoked, a reused family is revoked as a whole, and nothing else changes |
| `RefreshTokens.RefreshTokenStore.RevokeUserTokens` | apps/api/src/oidc/token.rs:438-451 | exactly the live tokens of the user, everywhere or in one organization, stop being live; no row and no other column changes |
| `RefreshTokens.RefreshTokenStore.RevokeGrantTokens` | apps/api/src/oidc/mod.rs:1504-1516 | exactly the live tokens of one application, user and organization stop being live |
| `RefreshTokens.RefreshTokenStore.Revoke` | apps/api/src/oidc/mod.rs:898-921 | only the client a token belongs to can revoke it, and only while it is live |
| `RefreshTokens.ApplyKeepsInv` | apps/api/src/oidc/token.rs:401-553 | every statement of every caller, with any outdated rows in hand, keeps chains and history in step |
| `RefreshTokens.FamiliesAreLinear` | apps/api/src/oidc/token.rs:479-553 | in every reachable state each family is one chain: one root, no branch, all but the last token revoked, one grant throughout |
| `RefreshTokens.ChainConsequences` | apps/api/src/oidc/token.rs:524-547 | on a chain: same client, actor, organization and scopes; at most one live token; at most one successor; a token with a successor is not live |
| `RefreshTokens.OutcomeDecidedByHistory` | apps/api/src/oidc/token.rs:487-552 | rotated, reuse detected or revoked is decided by what earlier calls did to the token, for any number of callers holding stale rows |
| `RefreshTokens.ExpiryIsAsIntroduced` | apps/api/src/oidc/token.rs:484-546 | in every reachable state a token expires at the end of the lifetime that it was given itself, when it was issued or came out of a rotation |
| `RefreshTokens.RotatedAtMostOnce` | apps/api/src/oidc/token.rs:487-552 | over a whole run a token is exchanged for a successor at most once |
| `RefreshTokens.FatalStepKills` | apps/api/src/oidc/token.rs:496-518 | detecting reuse, or revoking the live token without a successor, leaves no live token in the family |
| `RefreshTokens.FamilyDeathIsAbsorbing` | apps/api/src/oidc/token.rs:505-518 | from then on no token of the family is ever live and no caller gets a successor out of any row of it |
| `OAuthTables.TokenRefresh` | apps/api/src/oidc/mod.rs:684-735 | who may present a refresh token and which error each failing check gives; a success exchanges it for a successor and is for its own actor and scopes; a refused caller changes nothing but a family that was reused |
| `OAuthSteps.LoadRefreshExactly` | apps/api/src/oidc/mod.rs:694-710 | a request takes a token along if and only if it is stored, presented by its own registered client, unexpired, and its user, if it is a user's, an active member |
| `OAuthSteps.RotateRefreshExactly` | apps/api/src/oidc/mod.rs:712-735 | it goes on to mint, for its client and the token's actor, organization and scopes, if and only if the stored token is still there and unrevoked |
| `FamiliesInRuns.RefreshIsReachable` | apps/api/src/oidc/mod.rs:684-735 | every run of the whole system is, for the refresh tokens, a run of their own, so all of the above holds in it |
| `FamiliesInRuns.InFlightRotationDecidedByHistory` | apps/api/src/oidc/mod.rs:694-735 | the outcome for a refresh request that read its row earlier is decided by history at the moment it rotates, and it serves the client that the token was issued to |
| `FamiliesInRuns.RevokedGrantEndsItsTokens` | apps/api/src/oidc/mod.rs:1498-1517 | after a user revokes an application every refresh-token family that exists at that moment is dead in all later states, rotations under way included |
| `OAuthSteps.RevokeGrantExactly` | apps/api/src/oidc/mod.rs:1497-1517 | revoking an application marks its grant and ends exactly the live refresh tokens of that application, user and organization |
| `LateTokens.GrantRevocationIsFinalExactly` | apps/api/src/oidc/mod.rs:1498-1517 | no token of the grant is ever live again, unless the user authorizes anew, if and only if at the revocation no redeemable code, no approved device code and no exchange past its checks asks for one |
| `LateTokens.SomeTokenOutlivesRevocation` | apps/api/src/oidc/mod.rs:569-664 | a run in which a code issued before the revocation is exchanged for a live refresh token after it |
| `LateTokens.UserRevocationIsFinalExactly` | apps/api/src/accounts/mod.rs:593 | the same if and only if for the revocation of all of a user's tokens |
| `LateTokens.SomeTokenOutlivesUserRevocation` | apps/api/src/accounts/mod.rs:593 | a run in which a code issued before that revocation is exchanged for a live refresh token after it |
| `LateTokens.NoneComesExactlyWhenQuiet` | apps/api/src/oidc/mod.rs:569-664 | the same in any reachable state: without a new authorization no token of a grant is ever live if and only if none is live now and nothing is outstanding |
| `AfterRevocation.StepKeepsQuiet` | apps/api/src/oidc/mod.rs:517-541 | where nothing is outstanding for a grant, no step but a new authorization changes that |
| `FamiliesInRuns.RevokedUserLosesFamilies` | apps/api/src/accounts/mod.rs:593 | revoking a user's tokens, as password reset, password change, account deletion and lost memberships do, ends every refresh-token family that it finds for good |
| `FamiliesInRuns.DeathLasts` | apps/api/src/oidc/token.rs:505-518 | a dead family stays dead whatever consents, exchanges, device grants and rotations follow |
| `FamiliesInRuns.DeadFamilyMintsNothing` | apps/api/src/oidc/mod.rs:712-735 | a refresh request on a dead family ends without tokens |
| `Provenance.ApplyKeepsData` | apps/api/src/oidc/mod.rs:225-323 | no step of any interleaving stores or mints scopes beyond those the user approved |
| `Provenance.ScopesNeverOutgrowApproval` | apps/api/src/oidc/mod.rs:737-776 | every code, grant, refresh token and minted access token of every reachable state stays within what its user approved for that client and organization |
| `Provenance.SilentCodesWereApproved` | apps/api/src/oidc/mod.rs:485-513 | when the consent page is skipped, each requested scope was approved before |
| `OAuthTables.AuthorizeRequest` | apps/api/src/oidc/mod.rs:225-323 | a code is issued without asking if and only if all checks pass and an unrevoked grant holds every scope; nothing is sent to a redirect URI that is not registered; which answer each failing check gives |
| `OAuthSteps.SilentAuthorizationExactly` | apps/api/src/oidc/mod.rs:236-313 | the same if and only if for the step of a run, and the code it prepares |
| `OAuthSteps.ConsentExactly` | apps/api/src/oidc/mod.rs:383-434 | a consent stores a code if and only if the application is enabled, the redirect URI its own, the user a member and some scope supported; the code is for exactly that |
| `Provenance.RevokedGrantIsNeverReused` | apps/api/src/oidc/mod.rs:1780-1811 | a revoked grant allows skipping consent in no later state, whatever is approved later, unless its client or user is deleted |
| `Provenance.UpsertBounds` | apps/api/src/oidc/mod.rs:1751-1813 | an upsert whose read and write are not separated leaves the stored scopes between the stored and the stored plus requested ones; exactly when they stay as they were |
| `Provenance.SomeUpsertIsNotTheUnion` | apps/api/src/oidc/mod.rs:1780-1794 | a stored and a requested set whose union is not what is stored afterwards |
| `Provenance.StoredScopeSurvives` | apps/api/src/oidc/mod.rs:1780-1811 | a write on any outdated read keeps a stored scope if and only if what was read brings nothing new to the request, or the scope is requested or was read |
| `ConcurrentExchanges.SomeApprovedScopeIsLost` | apps/api/src/oidc/mod.rs:1758-1810 | a run in which a concurrent exchange removes an approved scope from the stored grant |
| `Provenance.MergeIsUnion` | apps/api/src/oidc/mod.rs:1767-1778 | merging yields the union, requested scopes first |
| `SingleUse.ApplyKeepsKeys` | apps/api/src/oidc/mod.rs:569-664 | no step of any interleaving lets a second handler hold or use the right to mint from one code |
| `SingleUse.CodeMintsAtMostOnce` | apps/api/src/oidc/mod.rs:569-664 | a code mints at most once, for its own client, on a verifier whose S256 image is the challenge, with its own user, organization and scopes |
| `SingleUse.DeviceMintsAtMostOnce` | apps/api/src/oidc/device.rs:314-373 | a device code mints at most once, never after a denial, presented by the client that started it, for the one user who approved it and its scopes |
| `SingleUse.RefreshMintsAtMostOnce` | apps/api/src/oidc/mod.rs:712-776 | a refresh token mints at most once, presented by the client it was issued to, for its own actor, organization and scopes |
| `SingleUse.RightYieldsOneFamily` | apps/api/src/oidc/token.rs:144-169 | a code or device code leads to at most one refresh family, for the request its access token was minted for, and only if that includes offline_access |
| `SingleUse.OneFamilyPerRight` | apps/api/src/oidc/token.rs:144-169 | every stored refresh token goes back to an issued family, and those of one code or device code are of one family |
| `SingleUse.DeviceStatusMovesForward` | apps/api/src/oidc/device.rs:220-236 | status moves only pending to approved or denied and approved to expired; nothing else of the row changes but user and poll time |
| `OAuthTables.CodesAndGrants.IssueAuthCode` | apps/api/src/oidc/mod.rs:452-482 | the stored code is exchangeable exactly until it expires, by its client, on its redirect URI, with a verifier for its challenge, for a member |
| `OAuthTables.CodesAndGrants.CoveredByGrant` | apps/api/src/oidc/mod.rs:485-513 | true exactly when an unrevoked grant contains every requested scope |
| `OAuthTables.CodesAndGrants.UpsertGrant` | apps/api/src/oidc/mod.rs:1751-1813 | the merging loop and the two statements against their specification and the bounds of UpsertBounds |
| `OAuthSteps.LoadCodeExactly` | apps/api/src/oidc/mod.rs:569-620 | an exchange goes on if and only if the code is unused, unexpired, its own registered client's, on its redirect URI, with a verifier for its challenge and for a member |
| `OAuthSteps.UseCodeExactly` | apps/api/src/oidc/mod.rs:622-629 | one handler marks the code used; whoever comes second ends |
| `OAuthSteps.StoreGrantExactly` | apps/api/src/oidc/mod.rs:631-664 | it goes on to mint for the presenter and the code's user, with a refresh token if and only if offline access was approved |
| `OAuthSteps.MintRefreshExactly` | apps/api/src/oidc/token.rs:172-195 | the refresh token of an exchange is live, in a family of its own, for the whole configured lifetime |
| `OAuthTables.CodesAndGrants.TokenAuthCode` | apps/api/src/oidc/mod.rs:569-664 | tokens are granted if and only if every check passes, and for what the code was issued for; which error each failing check gives; a refusal changes nothing, a success consumes the code |
| `DevicePolling.DeviceAuthorizations.DeviceAuthorization` | apps/api/src/oidc/device.rs:79-109 | for an application with an organization a pending row that lives for 15 minutes with the parsed scopes, or no row when no scope is supported |
| `DevicePolling.DeviceAuthorizations.DeviceApprove` | apps/api/src/oidc/device.rs:208-236 | a pending, unexpired row is approved or denied by active members of its organization; which refusal comes when; a refusal touches nothing |
| `DevicePolling.DeviceAuthorizations.TokenDeviceCode` | apps/api/src/oidc/device.rs:287-408 | exactly which poll gets which answer: another client learns and changes nothing, tokens go to the row's own client if and only if it is approved, unexpired and its approving user a member; the approval is consumed before anything else can fail |
| `OAuthSteps.StartDeviceExactly` | apps/api/src/oidc/device.rs:79-109 | the same of the steps of a run: which applications start the device grant, and the row |
| `OAuthSteps.DecideDeviceExactly` | apps/api/src/oidc/device.rs:209-236 | who decides, and when |
| `OAuthSteps.PollDeviceExactly` | apps/api/src/oidc/device.rs:291-408 | which poll takes an approved row along, and which leaves a mark |
| `OAuthSteps.CheckApprovalExactly` | apps/api/src/oidc/device.rs:330-373 | the approving user must still be a member; for whom tokens are then minted |
| `DevicePolling.PendingAnswersAreSpaced` | apps/api/src/oidc/device.rs:392-408 | two `authorization_pending` answers for one code are at least 5 s apart |
| `DevicePolling.AtMost181PendingAnswers` | apps/api/src/oidc/device.rs:24-25 | over the 900 s life of a code at most 181 polls are told to keep waiting |
| `DevicePolling.PollDeviceCode` | packages/identity-sdk/src/oidc.ts:222-240 | the SDK loop stops within floor(timeout/interval)+2 polls, repeats only on pending or slow_down, and at an interval of 5 s or more is never told to slow down |
| `AccessTokens.TokenAuthority.EnsureActiveKey` | apps/api/src/oidc/keys.rs:29-46 | the newest key that is not retired; a fresh one if and only if there is none |
| `AccessTokens.TokenAuthority.RotateKey` | apps/api/src/oidc/keys.rs:65-73 | afterwards only the new key is active, every active one is retired now, and every key that verified still does |
| `AccessTokens.TokenAuthority.MintAccessToken` | apps/api/src/oidc/token.rs:73-113 | token, record and answer live for the configured number of seconds; signed with the newest active key; claims and record agree on actor, organization, client, kind and scopes; no other record changes |
| `AccessTokens.TokenAuthority.RevokeUserTokens` | apps/api/src/oidc/token.rs:453-468 | exactly the records of the user, everywhere or in one organization, are revoked |
| `AccessTokens.TokenAuthority.ValidateAccessToken` | apps/api/src/oidc/token.rs:225-358 | the answer, scopes included, and that a key is generated only when none is active |
| `AccessTokens.TokenAuthority.CheckAgainstKeys` | apps/api/src/oidc/token.rs:243-358 | the checks in their order, with a loop over the verification keys |
| `AccessTokens.ApplyKeepsInv` | apps/api/src/oidc/token.rs:73-113 | no interleaving of rotation, key selection, signing, recording and revoking breaks the link between signed, issued and recorded tokens |
| `AccessTokens.ValidationIsExact` | apps/api/src/oidc/token.rs:225-358 | for any JWT in any reachable state: accepted if and only if issued, unexpired, not revoked since, its actor active, its key still verifying and the audience, if one is expected, its own; no ID token ever is |
| `AccessTokens.AcceptedWithinLifetime` | apps/api/src/oidc/token.rs:73-113 | no token is accepted before it was signed, nor once the configured lifetime after its signing second is over |
| `AccessTokens.ValidationIgnoresRotation` | apps/api/src/oidc/keys.rs:50-62 | a token that expires at most 24 h after its key was selected is accepted if and only if its configured lifetime since signing lasts, nobody revoked it since it was issued, and the actor it was minted for is active |
| `AccessTokens.AcceptedIsAsMinted` | apps/api/src/oidc/token.rs:282-286 | an accepted token speaks for the actor, organization and client it was minted for, and for the same scopes in order if these are words |
| `ServerRuns.RunsProject` | apps/api/src/oidc/token.rs:144-169 | every run of the whole server is a run of the OAuth handlers and a run of the token tables, and every recorded token was minted by a handler on some right |
| `ServerRuns.AcceptedScopesWereApproved` | apps/api/src/oidc/token.rs:349-357 | the scopes of any accepted token are supported ones, those it was minted with, in order; every scope of a user token was approved by that user for that client and organization |
| `AccessTokens.KeyOutlivesToken` | apps/api/src/oidc/keys.rs:50-73 | a token that expires at most 24 h after its key was selected finds the key among the verification keys until then |
| `AccessTokens.GraceConditionIsExact` | apps/api/src/oidc/keys.rs:50-73 | for any instants of selection and signing: no run loses the key of an unexpired token if and only if it expires at most 24 h after the selection, or has no lifetime |
| `AccessTokens.RevokedIsRejectedForever` | apps/api/src/oidc/token.rs:308-317 | a revoked access token is accepted in no later state |
| `AccessTokens.UserRevocationIsForever` | apps/api/src/oidc/token.rs:453-468 | after a user revocation no token issued to that user by then is ever accepted again |
| `AccessRevocation.UserRevocationReachesExactly` | apps/api/src/oidc/token.rs:453-468 | of all tokens signed for the user by the revocation, recorded or not, those are ever accepted again that a handler still holds for recording, for an organization, unexpired and with a verifying key, and no others |
| `AccessRevocation.UnrecordedIsAcceptedLaterExactly` | apps/api/src/oidc/token.rs:92-112 | the same if and only if for any signed and unrecorded token in any reachable state |
| `AccessRevocation.SomeTokenOutlivesUserRevocation` | apps/api/src/oidc/token.rs:92-112 | a run in which a token signed before the revocation and recorded after it is accepted |
| `AccessRevocation.RevocationEndpoint.Revoke` | apps/api/src/oidc/mod.rs:880-956 | both tables after a call: nothing without authentication, the refresh half first, the `jti` half only if no refresh token is named |
| `AccessRevocation.OwnershipIsKeptExactly` | apps/api/src/oidc/mod.rs:897-941 | a call touches only the presenter's tokens if and only if it names a stored refresh token, or its jti no unrevoked record, or one of the presenter's own |
| `AccessRevocation.JtiRevocationIsExact` | apps/api/src/oidc/mod.rs:923-935 | an accepted token is rejected after the call if and only if the call names its jti, whoever presents it |
| `AccessRevocation.SomeClientEndsAnothersToken` | apps/api/src/oidc/mod.rs:923-935 | a run in which one client ends the accepted token of another |
| `Ownership.PerformKeepsInv` | apps/api/src/orgs/mod.rs:502-576 | every handler keeps owner column, owner role, owner status, role membership and built-in roles consistent |
| `Ownership.OneOwnerPerOrganization` | apps/api/src/orgs/mod.rs:528-558 | in every reachable state exactly one user holds the owner role, the one in the owner column, active; every member has a role of that organization |
| `Ownership.OwnerMayDoEverything` | apps/api/src/rbac.rs:168-185 | the owner is authorized for every permission, named or not |
| `Ownership.CheckAgreesWithAuthorize` | apps/api/src/rbac.rs:683-721 | the permission check for products answers as `authorize` would, and answers exactly machine callers of that organization asking well-formed permissions |
| `Ownership.AuthorityStaysInsideTheOrganization` | apps/api/src/rbac.rs:189-216 | authorized if and only if an active member whose role, of that very organization, has the permission or is the owner role |
| `Ownership.TransferOutcome` | apps/api/src/orgs/mod.rs:509-558 | a transfer goes through exactly when the owner, recently authenticated, names another active member; the internal errors cannot occur |
| `Ownership.OwnershipMovesOnlyByTransfer` | apps/api/src/orgs/mod.rs:535-558 | no other step of anybody changes the owner of any organization; the old owner becomes Administrator |
| `Ownership.OwnerSeatIsUntouchable` | apps/api/src/orgs/mod.rs:628-650 | short of a transfer no step removes, suspends or changes the owner's membership |
| `Ownership.BuiltInRolesNeverChange` | apps/api/src/rbac.rs:233-290 | an organization always has its four seeded roles, unedited and found by name without ambiguity |
| `Ownership.AcceptanceGivesTheOfferedRole` | apps/api/src/orgs/mod.rs:1178-1238 | accepting adds one active membership with the very role offered; the fallback to Member is unreachable |
| `Ownership.LeavingRevokesTokens` | apps/api/src/orgs/mod.rs:785-877 | whoever stops being an active member has the tokens of that organization revoked in the same step |
| `Ownership.LeavingNeedsPermission` | apps/api/src/orgs/mod.rs:842-877 | one's own membership can be removed exactly by non-owners who may remove members, so holders of Member or Viewer cannot leave |
| `Ownership.SomeMemberCannotLeave` | apps/api/src/orgs/mod.rs:842-854 | a concrete run: an invited member accepts and is then refused when leaving |
| `OrgPermissions.PermissionsAreGranted` | apps/api/src/rbac.rs:168-216 | whoever gains a permission in a step founded the organization, accepted an invitation, or was given it by the owner or by a member with the right to |
| `OrgPermissions.RoleStepsAreContained` | apps/api/src/rbac.rs:418-664 | creating or deleting roles changes nobody's permissions, editing one only its holders' |
| `OrgPermissions.RestoringUndoesSuspension` | apps/api/src/orgs/mod.rs:785-825 | a suspended member is authorized for nothing and gets back exactly the same membership |
| `OrgPermissions.UpdatedRoleDecides` | apps/api/src/rbac.rs:497-562 | after an update active holders have exactly the new permissions; without new ones everybody keeps theirs; a renamed role is found under its trimmed name |
| `OrgPermissions.CreatedRoleGrants` | apps/api/src/rbac.rs:418-461 | a role created and handed to a member grants exactly the permissions it was created with |
| `OrgPermissions.SpentInvitationIsRefusedForever` | apps/api/src/orgs/mod.rs:1168-1170 | an invitation that was accepted, or revoked, lets nobody in ever after |
| `OrgPermissions.InvitationsAreSpent` | apps/api/src/orgs/mod.rs:1094-1112 | revoking an open invitation, and accepting it, spend it |
| `OrgSteps.CreationExactly` | apps/api/src/orgs/mod.rs:261-327 | which error a creation gives, and that founder, slug and owner role are set and nothing else changes |
| `OrgSteps.TransferExactly` | apps/api/src/orgs/mod.rs:509-558 | two seats change roles; status, keys and all other seats stay |
| `OrgSteps.AssignmentExactly` | apps/api/src/orgs/mod.rs:676-713 | exactly when a role is assigned, and the two refusals that come first |
| `OrgSteps.StatusChangeExactly` | apps/api/src/orgs/mod.rs:785-825 | exactly when a member is suspended or restored; only suspending revokes tokens |
| `OrgSteps.RemovalExactly` | apps/api/src/orgs/mod.rs:848-877 | exactly when a member is removed; leaving takes no recent sign-in |
| `OrgSteps.InvitationExactly` | apps/api/src/orgs/mod.rs:913-976 | exactly when an invitation is made, for which role and address, and that it lasts for the configured time |
| `OrgSteps.InviteRevocationExactly` | apps/api/src/orgs/mod.rs:1094-1112 | exactly when an invitation is revoked |
| `OrgSteps.AcceptanceExactly` | apps/api/src/orgs/mod.rs:1145-1238 | exactly when an invitation is accepted, and the membership that results |
| `OrgSteps.RoleCreationExactly` | apps/api/src/rbac.rs:418-461 | exactly when a custom role is created, and what it grants |
| `OrgSteps.RoleUpdateExactly` | apps/api/src/rbac.rs:497-562 | exactly when a custom role is edited, and its name and permissions then |
| `OrgSteps.RoleDeletionExactly` | apps/api/src/rbac.rs:599-646 | exactly when a role is deleted |
| `OrgSteps.AccountDeletionExactly` | apps/api/src/accounts/mod.rs:639-667 | exactly when an account is deleted, and what goes with it |
| `OrgSteps.TrimTakesEnds` | apps/api/src/rbac.rs:726 | trimming takes whitespace off both ends and leaves none there |
| `OrgSteps.RoleNamesExactly` | apps/api/src/rbac.rs:725-735 | a role keeps its trimmed name of 1 to 64 characters unless a built-in role is called so |
| `OrgSteps.PermissionsExactly` | apps/api/src/util.rs:35-48 | a permission is three or more segments of 1 to 32 lower-case letters, digits and hyphens that start with a letter |
| `OrgHandlers.Directory.SeedOrgRoles` | apps/api/src/rbac.rs:233-273 | the seeding loop adds the four built-in roles, or nothing if there are roles |
| `OrgHandlers.Directory.FindOrgRole` | apps/api/src/rbac.rs:276-290 | the one role of that name in the organization, if any |
| `OrgHandlers.Directory.CreateOrg` | apps/api/src/orgs/mod.rs:261-327 | all tables after creation: slug taken, roles seeded, caller owner and active member |
| `OrgHandlers.Directory.TransferOwnership` | apps/api/src/orgs/mod.rs:509-558 | all tables after each outcome of a transfer |
| `OrgHandlers.Directory.ValidateTarget` | apps/api/src/orgs/mod.rs:628-650 | nothing forbids changing a membership exactly when the caller has the permission and a recent sign-in and the target is somebody else without the owner role |
| `OrgHandlers.Directory.SetMemberRole` | apps/api/src/orgs/mod.rs:676-713 | nothing changes but one active member's role, which is an assignable role of the organization; the owner's stays; a refusal changes nothing |
| `OrgHandlers.Directory.UpdateMemberStatus` | apps/api/src/orgs/mod.rs:785-805 | all tables after suspending or restoring, token revocation included |
| `OrgHandlers.Directory.RemoveMember` | apps/api/src/orgs/mod.rs:848-877 | all tables after removing or leaving, token revocation included |
| `OrgHandlers.Directory.ValidateInvite` | apps/api/src/orgs/mod.rs:924-958 | when nothing forbids an invitation, the role may be handed out and no member has the address |
| `OrgPermissions.InvitationIsForItsAddress` | apps/api/src/orgs/mod.rs:913-976 | a new invitation is accepted by exactly the user with its address, who then holds the role it offers |
| `OrgHandlers.Directory.RevokeInvitation` | apps/api/src/orgs/mod.rs:1094-1112 | only open invitations of the organization are revoked |
| `OrgHandlers.Directory.AcceptInvitation` | apps/api/src/orgs/mod.rs:1145-1238 | all tables after each outcome of an acceptance |
| `OrgHandlers.Directory.InsertPermissions` | apps/api/src/rbac.rs:453-460 | row-by-row insertion gives the set of permissions, or fails on a repetition |
| `OrgHandlers.Directory.CreateRole` | apps/api/src/rbac.rs:418-461 | after a success the new role has exactly the permissions and the trimmed name asked for; all tables after each outcome |
| `OrgHandlers.Directory.UpdateRole` | apps/api/src/rbac.rs:497-562 | after a success the role has exactly the new permissions and the trimmed new name, or keeps the old; other roles and a refused update leave no trace |
| `OrgHandlers.Directory.DeleteRole` | apps/api/src/rbac.rs:599-646 | all tables after each outcome; built-in, held or invited roles stay |
| `OrgHandlers.Directory.DeleteAccount` | apps/api/src/accounts/mod.rs:639-667 | owners are refused; otherwise user and memberships go and all tokens are revoked |
| `OrgHandlers.Directory.PermissionCheck` | apps/api/src/rbac.rs:683-721 | the answer, and that it is the answer of `authorize` |
| `RateLimit.MemoryLimiter.CheckMem` | apps/api/src/ratelimit.rs:99-118 | verdict and new cell, with 32-bit wrap-around; no other key's cell changes |
| `RateLimit.MapKeysDiffer` | apps/api/src/ratelimit.rs:100 | scope and key are told apart by the joined key, since scopes have no colon |
| `RateLimit.KeysAreIndependent` | apps/api/src/ratelimit.rs:104-107 | in any run over all keys a key's cell is that of its own requests |
| `RateLimit.MemAnswers` | apps/api/src/ratelimit.rs:99-118 | a request is let through exactly when its place in its window, modulo 2^32, is within the limit |
| `RateLimit.RedisAnswers` | apps/api/src/ratelimit.rs:13-26 | the script lets a request through exactly when its place in its window is within the limit |
| `RateLimit.SameAnswerUnlessWrapped` | apps/api/src/ratelimit.rs:13-26 | without ties, script and fallback differ on a request exactly when the counter has wrapped to a value within the limit |
| `RateLimit.MemRefinesRedis` | apps/api/src/ratelimit.rs:99-118 | without ties, same answers over a whole run if and only if no window sees 2^32 requests |
| `RateLimit.AgreeUnderEveryLimitExactly` | apps/api/src/ratelimit.rs:99-118 | without wrap-around, same answers under every limit if and only if there is no tie: no request in the last millisecond of a window that is over |
| `RateLimit.SomeTie` | apps/api/src/ratelimit.rs:107-110 | two requests a second apart, within one per second, that the two answer differently |
| `RateLimit.SomeWindowWraps` | apps/api/src/ratelimit.rs:111-112 | 2^32 requests in one window: the fallback exceeds the limit and differs from the script |
| `RateLimit.RedisIntervalBound` | apps/api/src/ratelimit.rs:13-26 | at most limit*(floor(L/window)+2) requests pass in any stretch of length L, at most limit within one window |
| `RateLimit.MemIntervalBound` | apps/api/src/ratelimit.rs:99-118 | the same bounds for the fallback when no window sees 2^32 requests |
| `RateLimit.WindowLimitHoldsUnlessWrapped` | apps/api/src/ratelimit.rs:112-113 | within one window the fallback keeps to the limit if and only if fewer than 2^32 requests arrive |
| `RateLimit.RetryAdviceIsExact` | apps/api/src/ratelimit.rs:113-116 | a lone retry after a whole number of seconds passes exactly when that number is at least the advised one |
| `EcdsaDer.DerEcdsaToRaw` | apps/api/src/passkeys/webauthn.rs:173-209 | the loops over both INTEGERs against their specification; any result has 64 bytes |
| `EcdsaDer.ToRawIsExact` | apps/api/src/passkeys/webauthn.rs:173-209 | succeeds exactly on a SEQUENCE of two INTEGERs with nothing left over and unsigned values below 2^256, and keeps both values |
| `EcdsaDer.RawUndoesDer` | apps/api/src/passkeys/webauthn.rs:173-209 | for all r, s below 2^256 the DER signature converts to 32-byte r followed by 32-byte s (section 2.2.3 of RFC 3279) |
| `EcdsaDer.FramedConverts` | apps/api/src/passkeys/webauthn.rs:180-204 | what a framed signature converts to, or that a number is too wide |
| `EcdsaDer.ConvertedIsFramed` | apps/api/src/passkeys/webauthn.rs:174-208 | whatever converts is framed, byte for byte |
| `Pkcs8.DerLen` | apps/api/src/oidc/keys.rs:136-151 | short and long length octets, the bytes pushed low to high and reversed |
| `Pkcs8.DerTlv` | apps/api/src/oidc/keys.rs:152-157 | tag, length octets and contents |
| `Pkcs8.Pkcs8V1Envelope` | apps/api/src/oidc/keys.rs:132-162 | the built bytes are the specified envelope |
| `Pkcs8.EnvelopeRoundTrip` | apps/api/src/oidc/keys.rs:132-162 | a strict DER reader recovers version 0, the RSA algorithm and exactly the payload, nothing left over (section 5 of RFC 5208) |
| `Pkcs8.EnvelopeIsTheOnlyForm` | apps/api/src/oidc/keys.rs:132-162 | no other bytes are read as an envelope of that payload |
| `Pkcs8.LengthIsShortest` | apps/api/src/oidc/keys.rs:136-151 | no definite length octets for the number are shorter, and none as short are different (section 10.1 of X.690) |
| `Pkcs8.LengthIsTheOnlyForm` | apps/api/src/oidc/keys.rs:136-151 | only the octets written are read as that length |
| `AuthenticatorData.ParseAuthenticatorData` | apps/api/src/passkeys/webauthn.rs:110-161 | the parse by moving offset, every error in its order, no read out of bounds for any input |
| `AuthenticatorData.RefusedExactly` | apps/api/src/passkeys/webauthn.rs:110-155 | which record is refused with which error, the first failing test deciding |
| `AuthenticatorData.FlagBits` | apps/api/src/passkeys/webauthn.rs:103-105 | user presence is bit 0 and an attested credential bit 6 of the flags (section 6.1 of WebAuthn Level 2) |
| `AuthenticatorData.AttestedRoundTrip` | apps/api/src/passkeys/webauthn.rs:141-160 | a laid-out registration record gives back flags, counter, credential id up to 65535 bytes, and key or key error (section 6.5.1 of WebAuthn Level 2) |
| `AuthenticatorData.AssertionRoundTrip` | apps/api/src/passkeys/webauthn.rs:123-136 | a sign-in record gives back flags and counter whatever follows; it is refused where a credential is required |
| `AuthenticatorData.AcceptedIsLaidOut` | apps/api/src/passkeys/webauthn.rs:110-161 | whatever is accepted is such a record with the reported flags, counter, id and key |
| `AuthenticatorData.RegisteredKeySurvives` | apps/api/src/passkeys/mod.rs:527-559 | a key parsed at registration and stored reads back the same at sign-in |
| `Cose.ParsesExactly` | apps/api/src/passkeys/webauthn.rs:212-272 | a map reads as a key if and only if it holds, first under each label, every entry the key is stored with |
| `Cose.RefusedExactly` | apps/api/src/passkeys/webauthn.rs:212-272 | which map is refused for its algorithm, its kind of key or its curve |
| `Cose.RegisteredNumbers` | apps/api/src/passkeys/webauthn.rs:212-272 | P-256 with ES256, RSA with RS256 and Ed25519 with EdDSA are read from the numbers that RFC 8152 and WebAuthn give them |
| `Cose.StoredKeyRoundTrip` | apps/api/src/passkeys/mod.rs:527-569 | reading a stored key gives the key, for all three kinds and algorithms |
| `AuthorizeUrl.Urlencode` | apps/api/src/oidc/mod.rs:1815-1826 | the byte loop against the specified encoding |
| `AuthorizeUrl.EncodeByteExactly` | apps/api/src/oidc/mod.rs:1815-1826 | which bytes stay, and the percent sign with two upper-case hexadecimal digits for the others |
| `AuthorizeUrl.EncodingIsInjective` | apps/api/src/oidc/mod.rs:1815-1826 | different texts never print the same |
| `AuthorizeUrl.EncodedIsSafe` | apps/api/src/oidc/mod.rs:1815-1826 | only unreserved characters and percent signs are printed, none of the five query delimiters (section 2.3 of RFC 3986) |
| `AuthorizeUrl.DecodeUndoesEncode` | apps/api/src/oidc/mod.rs:1815-1826 | form-decoding gives every text back |
| `AuthorizeUrl.QueryRoundTrip` | apps/api/src/oidc/mod.rs:1717-1737 | decoding a printed parameter list gives the list, values and order alike |
| `AuthorizeUrl.BuildAuthorizeUrl` | apps/api/src/oidc/mod.rs:1717-1737 | the URL pushed together piece by piece is base, path and printed parameters |
| `AuthorizeUrl.ParsesExactly` | apps/api/src/oidc/mod.rs:1565-1580 | which parameters are required, which default to empty or S256, and which count as absent when empty |
| `AuthorizeUrl.ProducibleExactly` | apps/api/src/oidc/mod.rs:1565-1580 | a request can come out of parsing if and only if state, nonce and prompt are absent or not empty |
| `AuthorizeUrl.RereadsUrl` | apps/api/src/oidc/mod.rs:1565-1580 | what reading the URL back gives for any request at all |
| `AuthorizeUrl.UrlRoundTrip` | apps/api/src/oidc/mod.rs:1717-1737 | the same request but for the prompt if and only if the response type is `code` and state and nonce are not empty |
| `AuthorizeUrl.LoginDetour` | apps/api/src/oidc/mod.rs:269-270 | the URL, encoded once more for the login page, comes out of `continue` unchanged |

## Left out

- RefreshTokens.RefreshTokenStore.RevokeUserTokens: the second statement, on access-token records, is `AccessTokens.TokenAuthority.RevokeUserTokens`.
- OAuthTables.TokenRefresh: the other clients' steps between reading and rotating are in OAuthRuns, not in the method; client authentication comes before it.
- OAuthTables.AuthorizeRequest: answers are named, not rendered as redirects; the order in which a request is read is that of the code.
- FamiliesInRuns.RevokedGrantEndsItsTokens: says nothing of families issued later, which is what LateTokens is about; access tokens already minted live on until they expire, as in the code.
- LateTokens.GrantRevocationIsFinalExactly: a code is redeemable when some verifier has its challenge as S256 image; whether a client knows that verifier is not modelled.
- LateTokens.NoneComesExactlyWhenQuiet: in a state where the client or the user was deleted with an exchange under way, the model lets that exchange finish, where the code fails on a foreign key.
- DevicePolling.PollDeviceCode: network failures end the loop and are not modelled.
- DevicePolling.DeviceAuthorizations.DeviceAuthorization: the user code and its lookup are one identifier with the device code.
- AccessTokens.ValidationIsExact: claims are typed, so a claim that fails to parse as a UUID is an absent one.
- OAuthTables.CodesAndGrants.TokenAuthCode: the other clients' steps between its statements are in OAuthRuns, not in the method.
- OrgHandlers.Directory.CreateOrg: name and slug syntax are one input that is absent when malformed; the session's current organization is not kept.
- OrgHandlers.Directory.CreateInvitation: email syntax likewise; addresses are compared in lower case.
- OrgHandlers.Directory.DeleteAccount: rows of other features that go with the user are not modelled.
- RateLimit.MemoryLimiter.CheckMem: one rule per key; the TTL that Redis reports as retry advice and the switch to the fallback on a Redis error are not modelled.
- Pkcs8.Pkcs8V1Envelope: requires the envelope to fit the address space, as any buffer must.
- AuthorizeUrl.UrlRoundTrip: requires a base URL without `?` or `#`; texts are UTF-8 bytes, one character each.
- Cose.ParsesExactly: CBOR bytes, base64 and integers beyond the map level are the library's.
- AuthenticatorData.ParseAuthenticatorData: the relying-party hash is an input; decoding CBOR is a function parameter.
- Cryptography: SHA-256, RSA, P-256, Ed25519, Argon2 and AES-GCM are not part of this model, nor is the dispatch between raw and DER signatures.
- HTTP: routing, cookies, sessions, CORS, OpenAPI, tracing, email and audit records carry no property proved here.
- Accounts: password reset and password change appear as their revocation of the user's tokens; registration, recovery codes, TOTP and sessions do not appear.
- Teams, profiles, listings, renaming, service-account credentials and device enrollment would only add easy members; service accounts and devices appear as active actors and as holders of roles.
- Discovery, JWKS, userinfo and logout only read what is modelled.
- Seeds, configuration, the web application and the demo application.
