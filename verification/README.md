# Lattice-ID gateway: state protocols over a revisioned store

A Dafny model of the OpenID Connect gateway's protocols. Replicas and browsers share
nothing but a key-value store whose cells carry a revision: create fails if the name is
taken, compare-and-swap fails unless the revision is the one that was read. On these two
operations rest the signing-key ring, the rate limiter, single-use authorization codes,
refresh-token families, device codes and recovery codes. The model states what they
guarantee over every interleaving.

## How it is built

* `Kv` is the store; `Decimal`, `Words` and `Lists` are numbers as text, machine words as
  bits, and lists of names.
* Each protocol is a transition system: a `State`, events that do one store operation each,
  `Step`, and `Run` over any sequence of events. Processes in flight keep what they read.
  Some fields of a state are history (`log`, `admits`, `h`, ...); no branch depends on them.
* An invariant of every reachable state carries the theorems. It is kept by one short lemma
  for each place a process can be in.
* What others may not do is half of a protocol; that it gets anywhere is the other. Theorems
  named `...Alone` say, from any reachable state, exactly what one operation comes to when
  nothing happens in between, in numbers and in terms of the request or login behind it.
* The `...Calls` modules hold the procedures themselves, with their loops, retries and early
  returns, over a mutable state that other processes change between any two store
  operations (`Others`). Each method is proved to be a run of its transition system, so
  every theorem about runs holds of it.
* A property that needs a proviso comes with the proviso as a condition of the run (`late`,
  `overlapped`, `Timely`), with a run from the start that shows what happens without it, and
  with the exact condition under which it fails.

| protocol | system | invariant and theorems | procedures |
|---|---|---|---|
| signing-key ring | `KeyRing` | `KeyRingInv`, `KeyRingFrame`, `KeyRingSteps`, `KeyRingMoves`, `KeyRingSafety`, `KeyRingAlone`, `KeyRingProgress`, `KeyRingLate` | `KeyRingCalls` |
| rate limiter | `RateLimit` | `RateLimit`, `RateLimitWindows` | `RateLimitCalls` |
| authorization code | `Authorize`, `AuthFlow` | `AuthBinding`, `AuthSafety`, `AuthLogin`, `AuthConsent`, `AuthAgain`, `AuthTwice` | `AuthCalls` |
| refresh families | `Refresh` | `RefreshSafety`, `RefreshFamilies`, `RefreshProgress`, `RefreshSweeps`, `RefreshReplay`, `RefreshRuns`, `RefreshNotice` | `RefreshCalls` |
| device grant | `Device` | `DeviceSafety`, `DeviceStatus`, `DeviceGrant` | `DeviceCalls` |
| recovery codes | `Recovery` | `Recovery` | `RecoveryCalls` |
| TOTP | `Base32`, `Totp`, `TotpReplay` | same | `Base32Loops`, `Totp` |
| client registry | `Registration`, `ClientAuth`, `Jwt` | same | same |
| hooks and claims | `Hooks`, `Claims` | same | same |

Assumptions: one monotone clock for all replicas; a signature verifies only under the key
that made it; SHA-256, HMAC and secret hashing are function parameters; random identifiers
are distinct. The store behaves as its in-memory implementation
(`oidc-gateway/src/store.rs:1001-1116`).

## Findings

Where the code does less than its text says, the model follows the code.

* A refresh-token replay does not always revoke the whole family, as `SECURITY.md:69-71` has
  it. `RefreshSweeps.FamilyOutlivesSweep` says, for a sweep among any other steps, exactly when
  the family outlives it: the listing overlooked a rotation under way or a token not yet
  indexed, or a rotation swapped the token after the listing, and what escaped was not lost by
  itself. `RefreshReplay.SweepGuarantees`: before its listing a sweep is certain to end only a
  family that has ended. `RefreshRuns.MissedRotation` and `RefreshRuns.SwappedDuringSweep` are
  runs from the start for either way.
* Nor is every replay noticed: the marker and the swapped record are read one after the other,
  and a rotation can write the one and delete the other in between (`RefreshRuns.UnnoticedReplay`).
  `RefreshNotice.MissedIff` is exact: while neither runs out, a lookup can end as "unknown token"
  exactly if the marker is missing and the record is missing too, or may be deleted first, by a
  rotation of the token that has not ended, by the removal of an expired token, or by a sweep.
* An authorization code can yield two token responses, against section 4.1.2 of RFC 6749.
  `save_auth_code` writes whatever is stored, so the second of two approved consent forms puts back
  a code that was exchanged in between (`AuthTwice.AnsweredTwice`, a run from the start). Only a
  form's save brings a code back (`AuthSafety.RestoredIff`), a code is used twice only after that
  (`AuthSafety.AtMostOnce`), and `AuthAgain.AnsweredAgainIff` says exactly from which states an
  answered code can be answered again.
* The reserved list of `set_claim` leaves out claims that `build_claims` computes: the DPoP
  confirmation `cnf`, `sid`, `lid_userinfo_claims` and three name claims.
  `Claims.SurvivesIffReserved` says exactly which claims hooks cannot touch.
* Tokens live 3600 seconds (`oidc-gateway/src/token.rs:1088`), not 15 minutes as
  `SECURITY.md:68` says; the grace period of retired keys is made for the former.
* A TOTP step can be accepted twice: at any second from 90 seconds after the first at which it
  is acceptable, and not before (`TotpReplay.ReplayedFrom`). Only logins that record in the very
  second in which they verify are safe from that (`TotpReplay.OnlyNoDelayIsSafe`).
* A device decision can be overwritten. `DeviceStatus.DecisionOverwrittenIff`: in any run, exactly
  by a swap whose re-read saw the code decided, which `update_device_code_status` does not look
  at; `DeviceStatus.OverlapOverwrites` is a run from the start, approved and then denied.
* An update may lock its client out: by a secret method for a client registered without a
  secret, or by assertion with no RSA or EC key. `ClientAuth.UpdateStrands` says that these are
  all; `ClientAuth.UpdateLocksOut` is such a registration and update.
* A rotation that writes 570 seconds after it captured its time makes verifiers reject an
  unexpired token (`KeyRingLate.UnexpiredTokenRejected`); no shorter delay does
  (`KeyRingLate.SafeUpTo570`).
* A rate-limited call that waits eleven seconds can be admitted to a full window; one that waits
  ten never is (`RateLimitWindows.OnlyTenSecondsAreSafe`).
* The record of a client assertion's id lives 300 seconds, the assertion up to 600
  (`ClientAuth.AssertionReuse`).

## Model

| member | source | states |
|---|---|---|
| KeyRingSafety.ReachableInv | oidc-gateway/src/key_manager.rs:309-446 | the ring invariant holds in every state any number of bootstraps, rotations, readers and signers can reach |
| KeyRingSafety.CurrentMaterial | oidc-gateway/src/key_manager.rs:178-276 | once the ring pointer exists, the two records its version names exist and hold exactly its RSA and EC kids |
| KeyRingSafety.GraceMaterial | oidc-gateway/src/key_manager.rs:418-422 | no purge, from whatever stale snapshot, removes or replaces a retired record still inside its grace window |
| KeyRingSafety.JwksExact | oidc-gateway/src/key_manager.rs:567-607 | an up-to-date reader publishes the current RSA key, the current EC key, then the in-grace retired keys, each under its recorded kid and nothing else |
| KeyRingSafety.TokenVerifies | oidc-gateway/src/service_client.rs:17-46 | if every winning rotation writes less than 570 seconds after capturing its time, a token verifies exactly when its two signing reads saw one version and its lifetime plus leeway is not over |
| KeyRingSafety.GraceMargin | oidc-gateway/src/key_manager.rs:17-21 | 570 seconds is exact: a retired key outlives all tokens signed up to the write if and only if the write came less than 570 seconds after the captured time |
| KeyRingLate.UnexpiredTokenRejected | oidc-gateway/src/key_manager.rs:371-446 | a run from the start: a rotation writes at 570 seconds, and a token signed just before under the current version is rejected within its lifetime and leeway |
| KeyRingLate.SafeUpTo570 | oidc-gateway/src/key_manager.rs:371-446 | all runs whose winning writes come less than g seconds after their captured time verify every unexpired token of a single version if and only if g is at most 570 |
| KeyRingSafety.ConsecutiveVersions | oidc-gateway/src/key_manager.rs:371-446 | versions are 1, 2, 3, ... without gap; a rotation that reports a version wrote just that one, and each later version has such a rotation |
| KeyRingSafety.RingChanges | oidc-gateway/src/key_manager.rs:411-440 | the pointer changes only by its creation or by the swap of a rotation that had read the current value; a lost swap leaves it |
| KeyRingSafety.LostToFiveWrites | oidc-gateway/src/key_manager.rs:371-446 | a rotation that gives up was beaten by five versions other processes wrote while it ran |
| KeyRingSafety.RetiredInPairs | oidc-gateway/src/key_manager.rs:386-401 | every ring value lists its retired keys as RSA/EC pairs of versions below its own, each version at most once |
| KeyRingProgress.RotateAlone | oidc-gateway/src/key_manager.rs:371-446 | from every reachable state, stray key records included, a rotation that runs alone ends with the version after the one it found, or 2 after a bootstrap; the ring names the stored records of that version, those others left or else new ones, and exactly the records whose grace was over are gone |
| KeyRingProgress.SignAlone | oidc-gateway/src/key_manager.rs:619-640 | wherever the ring exists, a signature made alone is by the current key of the algorithm, under its kid |
| KeyRingProgress.ReadsAlone | oidc-gateway/src/key_manager.rs:567-607 | wherever the ring exists, a reading alone comes to a key set or a verdict and removes exactly the records whose grace is over |
| KeyRingProgress.SignThenVerify | oidc-gateway/src/service_client.rs:17-46 | with timely rotations behind it, a token signed alone and checked alone some seconds later is accepted exactly if those are at most 3630 |
| KeyRingCalls.KeepActive | oidc-gateway/src/key_manager.rs:384-391 | the filter loop keeps exactly the entries still in grace, in order |
| KeyRingCalls.Replica.CreateOrLoadKey | oidc-gateway/src/key_manager.rs:178-212 | creating a key or adopting the winner's is a run of the system and returns the kid stored under the name then, or none exactly if nothing is stored there |
| KeyRingCalls.Replica.BootstrapMeta | oidc-gateway/src/key_manager.rs:328-353 | bootstrap, with its lost-race reload, is a run of the system |
| KeyRingCalls.Replica.LoadMetaWithRevision | oidc-gateway/src/key_manager.rs:309-318 | loading the ring, bootstrapping it on first use, is a run of the system |
| KeyRingCalls.Replica.RotateKeys | oidc-gateway/src/key_manager.rs:371-446 | the five-attempt rotation loop, purge included, is a run of the system that ends with the outcome returned |
| KeyRingCalls.Replica.GetPublicKeys | oidc-gateway/src/key_manager.rs:567-607 | reading the JWKS, purging as it goes, is a run of the system |
| RateLimit.CounterCountsAdmissions | oidc-gateway/src/abuse.rs:13-66 | in any interleaving the stored counter is the number of admitted calls of its window, at most the limit; they got limit-1, limit-2, ... each once; a denied call found the window full |
| RateLimitWindows.SlidingBound | oidc-gateway/src/abuse.rs:13-64 | of the calls that began in any interval one window long at most twice the limit are admitted |
| RateLimitWindows.LandingBound | oidc-gateway/src/abuse.rs:13-64 | by the time of their writes, any such interval holds at most three times the limit for windows of ten seconds and more, and (2 + windows the margin spans) times for shorter ones |
| RateLimitWindows.TenSecondsIsInTime | oidc-gateway/src/abuse.rs:37-64 | a run in which every store operation comes at most ten seconds after its call captured the time meets the proviso of these theorems |
| RateLimitWindows.OnlyTenSecondsAreSafe | oidc-gateway/src/abuse.rs:36-64 | all runs whose operations come at most g seconds after their call captured the time admit no more than the limit in any window if and only if g is at most ten, or the limit is zero |
| RateLimitWindows.ExpiredWindowAdmitsAgain | oidc-gateway/src/abuse.rs:36-50 | for every window and limit, a run from the start that fills the window and admits one more call, which began in the window's last second and waited eleven |
| RateLimitWindows.CallAlone | oidc-gateway/src/abuse.rs:17-69 | a call alone is admitted exactly if its window has room, with the limit less the admitted calls less one remaining, and is denied otherwise |
| RateLimit.ExhaustedMeansFiveOthers | oidc-gateway/src/abuse.rs:17-69 | a call that runs out of retries was beaten by five other calls admitted to its window while it ran |
| RateLimit.DbKeyInjective | oidc-gateway/src/abuse.rs:13-14 | the counter's name determines key and window start, colons in the key included |
| RateLimitCalls.Limiter.CheckRate | oidc-gateway/src/abuse.rs:7-70 | the retry loop is a run of the system and returns the outcome recorded for the call |
| Base32.RoundTrip | oidc-gateway/src/totp.rs:94-134 | decoding an encoding gives back the bytes, for every length (RFC 4648 section 6) |
| Base32.RoundTripOfText | oidc-gateway/src/totp.rs:94-134 | a text is, up to case, padding and blanks, the encoding of what it decodes to exactly if fewer than five bits are left over and they are zero |
| Base32Loops.Encode | oidc-gateway/src/totp.rs:94-112 | the loop over an unmasked 64-bit buffer computes the bit-string encoding, though older bits fall off the top |
| Base32Loops.Decode | oidc-gateway/src/totp.rs:114-134 | so does the decoding loop, rejecting exactly the texts with a foreign character |
| Totp.TruncatedIsWord | oidc-gateway/src/totp.rs:68-73 | the shift-and-or expression is the big-endian word at the low four bits of the last byte, modulo 2^31 (RFC 4226 section 5.3), reading in bounds |
| Totp.PrintedValue | oidc-gateway/src/totp.rs:75-76 | the printed code has exactly six digits and the value of that word modulo 10^6 |
| Totp.PrintedIsCode | oidc-gateway/src/totp.rs:53-77 | the printed text is the one code of its step: six digits, the truncated HMAC of the step's eight big-endian bytes modulo 10^6 (RFC 6238 section 4) |
| Totp.Rfc4226Example | oidc-gateway/src/totp.rs:68-76 | the example of RFC 4226 section 5.4 gives 872921 |
| Totp.ConstantTimeEq | oidc-gateway/src/totp.rs:79-88 | the xor loop decides equality of the two byte strings |
| Totp.VerifyTotpStep | oidc-gateway/src/totp.rs:34-51 | returns the first of the three candidate steps of which the presented bytes are the code by RFC 6238 section 4; none exactly if there is none or the secret does not decode |
| TotpReplay.AcceptedOnce | oidc-gateway/src/login.rs:638-660 | each user and step is accepted at most once over any run in which logins record a step while it is acceptable |
| TotpReplay.ReplayedFrom | oidc-gateway/src/store.rs:3146-3152 | some run accepts an accepted use again at a given second exactly if that is ninety seconds or more after its step was first acceptable |
| TotpReplay.OnlyNoDelayIsSafe | oidc-gateway/src/login.rs:638-660 | runs whose logins record at most so many seconds after they verify all accept each use once exactly if that is zero seconds |
| TotpReplay.UninterruptedOnce | oidc-gateway/src/login.rs:638-660 | logins that each verify and record without interruption, at any times, accept each use once |
| TotpReplay.LoginAlone | oidc-gateway/src/login.rs:638-660 | in every reachable state a login alone is accepted exactly if its step is the clock's, the one before or the one after, and its use was not accepted before |
| TotpReplay.SecondLate | oidc-gateway/src/store.rs:3146-3152 | a run from the start that accepts a use twice although no login took longer than a second |
| Authorize.DecisionBinds | oidc-gateway/src/authorize.rs:223-651 | whatever /authorize stores carries the effective request, pushed or not, for a registered redirect URI, always S256 with a challenge; a code is for the user of the browser's session; a silent request never opens a page nor leaves a consent pending |
| Authorize.MintedIff | oidc-gateway/src/authorize.rs:223-608 | /authorize mints a code without a login exactly for a well-formed request, pushed if the client must, of a known client to a registered URI, if the session is recent enough, its user active, the hint is about that user, every asked ACR was reached and no page is needed where none is allowed |
| Authorize.LoginShownIff | oidc-gateway/src/authorize.rs:223-651 | /authorize opens a login exactly for an understood, registered request that can be met, may show a page and cannot be answered from the session |
| Authorize.SilentOutcome | oidc-gateway/src/authorize.rs:396-608 | a silent request that is otherwise in order gets a code, or consent_required, interaction_required or login_required, each exactly under its own condition |
| Authorize.ParamsComplete | oidc-gateway/src/authorize.rs:228-240 | every parameter of a query without duplicates reaches the request under its own value |
| Lists.ParseAcrValues | oidc-gateway/src/authorize.rs:17-27 | the loop yields the trimmed, non-empty pieces, each once, in order |
| Lists.MergeAmr | oidc-gateway/src/login.rs:14-27 | the loops yield primary methods then additions, each once |
| Lists.MergedAmr | oidc-gateway/src/login.rs:14-40 | after a second factor the list names mfa and otp, begins with the primary methods and has no duplicates |
| AuthSafety.ReachableInv | oidc-gateway/src/login.rs:794-945 | in every reachable state each session, code, consent form and token call is tied to its request, with any consent that needed, and no live code has been used unless a form restored it |
| AuthSafety.EndToEnd | oidc-gateway/src/token.rs:193-229 | a successful code exchange has the client, redirect URI, nonce and scope of the /authorize request it goes back to, a verifier that hashes to its challenge, the user, time and factors of the login behind it, and whatever consent it needed; a code minted pending consent was approved by its user, with the CSRF token it was minted with, before the response (RFC 7636 section 4.6) |
| AuthSafety.AtMostOnce | oidc-gateway/src/token.rs:193-229 | in any interleaving of token requests, forms and logins, two token responses for one code are only of a code that a consent form saved when it was no longer live (RFC 6749 section 4.1.2) |
| AuthSafety.RestoredIff | oidc-gateway/src/login.rs:1106-1108 | a code that was issued and is no longer live comes back exactly by the save of an approved form that had read it before |
| AuthAgain.AnsweredAgainIff | oidc-gateway/src/store.rs:2047-2080 | an answered code is answered again in some run exactly if a call has swapped it and is to answer, or it is live and unexpired, or a form has yet to save it unexpired, or a call holds it at a revision the forms yet to save it can bring back |
| AuthAgain.FormBringsBack | oidc-gateway/src/login.rs:1064-1108 | for a code no form has restored yet, that is exactly if a form that read it before has still to save it, unexpired or while a call holds it at a revision within the number of such forms |
| AuthTwice.AnsweredTwice | oidc-gateway/src/login.rs:1064-1108 | a run from the start: a request, a consent form submitted twice, and one code with two token responses |
| AuthSafety.OnlyApprovalClears | oidc-gateway/src/login.rs:1106-1108 | a pending code becomes redeemable only by the save of a form for it, after an approval of it by its user with its own CSRF token |
| AuthSafety.OnlyApprovalSaves | oidc-gateway/src/login.rs:1064-1083 | a form comes to save a code only by an approval, while the code is live and unexpired, with its own CSRF token from the browser bound to it |
| AuthSafety.UninterruptedExchange | oidc-gateway/src/token.rs:176-236 | alone, an exchange succeeds exactly under the listed conditions, and then consumes the code |
| AuthLogin.RequestOpens | oidc-gateway/src/authorize.rs:612-651 | in every reachable state a request that opens a login adds one session, which goes back to this very request, its requested claims included |
| AuthLogin.LoginMints | oidc-gateway/src/login.rs:794-921 | in every reachable state an undenied login on such a session adds exactly one live code: client, redirect URI, challenge, nonce, scope, state and claims of the originating request, this user, time and factors, 300 seconds, waiting for consent exactly if consent is due |
| AuthLogin.SignInMints | oidc-gateway/src/login.rs:753-945 | the two together, from the request to the code |
| AuthLogin.LoginThenExchange | oidc-gateway/src/token.rs:176-236 | presented at once by its client with the right verifier, for an active user, that code is exchanged exactly if no consent is due |
| AuthConsent.FormAlone | oidc-gateway/src/login.rs:1055-1149 | alone, a genuine approval of a current code makes it redeemable and adds its scope to the user's grants; a genuine denial, or any form for an expired code, deletes it; any other form changes nothing |
| AuthConsent.FormThenExchange | oidc-gateway/src/login.rs:1064-1108 | right after a genuine form a code that is fit but for its consent is exchanged exactly if the form approved |
| AuthCalls.Gateway.HandleCodeExchange | oidc-gateway/src/token.rs:169-330 | the handler is a run of the system; a response is the one the theorems speak of |
| AuthCalls.Gateway.CompleteLoginWithAmr | oidc-gateway/src/login.rs:753-945 | completing a login is one step; it returns a code exactly for an undenied login on a stored session that is neither a device's nor SAML's |
| AuthCalls.Gateway.HandleConsent | oidc-gateway/src/login.rs:1055-1149 | the form handler, which reads the code, saves or deletes it, and reads and writes the consent record as separate operations, is a run of the system; it reports approval only for an approval in the history |
| RefreshSafety.ReachableInv | oidc-gateway/src/token.rs:353-488 | the family invariant holds in every state any number of interleaved token requests and sweeps can reach |
| RefreshFamilies.OneLiveToken | oidc-gateway/src/token.rs:353-482 | a family has at most one live token, and none while a call is about to save the next |
| RefreshFamilies.OncePerToken | oidc-gateway/src/token.rs:353-425 | each refresh token yields at most one response and is never live again (RFC 6749 section 6) |
| RefreshFamilies.ChainKeepsRoot | oidc-gateway/src/token.rs:383-482 | along a chain of any length: refreshes happen within the absolute lifetime of the first token, for its client, with its bound key; successors keep its login fields and expire exactly thirty days after the refresh or at the end of that lifetime, whichever is first |
| RefreshFamilies.SwappedIsChecked | oidc-gateway/src/store.rs:2111-2119 | a swapped token is always treated as a possible replay, never as live |
| RefreshFamilies.EndedForever | oidc-gateway/src/store.rs:2215-2231 | a family with no live token and no call that owes one stays that way |
| RefreshFamilies.ReplayNamesOwner | oidc-gateway/src/store.rs:2153-2176 | a replay found by either lookup goes after the user of the family the token belongs to |
| RefreshProgress.RefreshAlone | oidc-gateway/src/token.rs:332-520 | from every reachable state a refresh alone of a live token is issued exactly if client and key match, the user is active, and token and family are in time |
| RefreshProgress.RefreshAgain | oidc-gateway/src/token.rs:468-482 | its successor can be refreshed alone exactly up to 2592000 seconds after that and up to the root's issue time plus the maximum |
| RefreshProgress.RootAlone | oidc-gateway/src/token.rs:290-318 | the first token of a family carries the login, with now for a missing authentication time, and lives thirty days |
| RefreshProgress.FirstRefresh | oidc-gateway/src/token.rs:332-520 | it can be refreshed alone exactly by its client, with its key, for an active user, within thirty days and the family's maximum |
| RefreshSweeps.FamilyOutlivesSweep | oidc-gateway/src/store.rs:2215-2231 | a family outlives a sweep, whatever else runs from its listing on, exactly if the listing overlooked it or a rotation swapped its token later, and what escaped was not given up or deleted afterwards by anything else |
| RefreshSweeps.SweepEndsFamily | oidc-gateway/src/store.rs:2215-2231 | a sweep ends each family that its listing did not overlook and whose token no rotation swaps meanwhile; if nothing that escaped is lost by itself, only those |
| RefreshReplay.SweepGuarantees | oidc-gateway/src/store.rs:2215-2231 | a sweep about to list ends a family in every interleaving exactly if the family has ended already |
| RefreshReplay.ReplayMissesRotation | oidc-gateway/src/token.rs:354-374 | from any reachable state in which a rotation of an active user is between swap and save, and its token is marked or its record still stored, a replay can be found, reported and swept and still the family gets a live token |
| RefreshRuns.MissedRotation | oidc-gateway/src/token.rs:354-374 | a run from the start that ends so |
| RefreshRuns.SwappedDuringSweep | oidc-gateway/src/store.rs:2215-2231 | another, in which nothing is overlooked by the listing and the swap comes during the sweep |
| RefreshRuns.UnnoticedReplay | oidc-gateway/src/store.rs:2153-2176 | a run from the start in which a swapped token is presented again and answered as unknown; `RefreshNotice.MissedIff` says exactly when that can happen |
| RefreshNotice.MissedIff | oidc-gateway/src/store.rs:2153-2176 | while neither marker nor record runs out, a lookup of a token can end as unknown exactly if the marker is missing, and the record is missing, or a rotation of the token, the removal of an expired token or a sweep can still delete it |
| RefreshCalls.TokenEndpoint.HandleRefresh | oidc-gateway/src/token.rs:332-520 | the handler, with both replay lookups, the sweep loop and the removal of expired tokens, is a run of the system that ends with the outcome returned |
| RefreshCalls.TokenEndpoint.DeleteUserTokens | oidc-gateway/src/store.rs:2215-2231 | the sweep loop, token and index entry deleted one after the other, is a run of the system |
| DeviceSafety.ReachableInv | oidc-gateway/src/device.rs:281-664 | the device invariant holds in every reachable state, however handlers and polls overlap |
| DeviceStatus.DecisionOverwrittenIff | oidc-gateway/src/store.rs:3448-3471 | in every reachable state a step rewrites a decided device code exactly if it is the accepted swap of a handler whose re-read saw it decided |
| DeviceStatus.StatusMovesOnce | oidc-gateway/src/device.rs:581-664 | while no two handlers overlap on a device, a stored code changes only from pending to denied, or to approved for the user its approval token was made for |
| DeviceSafety.MintsAreApproved | oidc-gateway/src/token.rs:632-698 | in every run, overlapping handlers included: tokens are minted only after an approval, for the user the login recorded for that device, with the client and scope the device asked for, at most once per device code (RFC 8628 section 3.5) |
| DeviceStatus.OverlapOverwrites | oidc-gateway/src/store.rs:3448-3471 | a run from the start in which the user's approval is stored and a lockout then denies it |
| DeviceGrant.PollAlone | oidc-gateway/src/token.rs:632-698 | a poll alone mints exactly if the code is stored, unexpired, of this client, approved, and its user active; deletes it exactly if it is this client's and expired, denied or approved; and answers accordingly (RFC 8628 section 3.5) |
| DeviceGrant.GrantAlone | oidc-gateway/src/device.rs:281-664 | from the device's request, code entry, login and decision to the poll: tokens for that user, client and scope if approved, within 300 seconds and for an active user; refused if refused; expired after |
| DeviceGrant.LockOutAlone | oidc-gateway/src/device.rs:276-300 | too many wrong entries deny a pending code and leave any other as it was |
| DeviceCalls.DeviceEndpoint.CreateApproval | oidc-gateway/src/device.rs:393-406 | the approval records device, user, client and sid of the completed session, under a fresh token |
| DeviceCalls.DeviceEndpoint.HandleConfirmation | oidc-gateway/src/device.rs:581-664 | the confirmation handler is a run of the system |
| DeviceCalls.DeviceEndpoint.HandleDeviceCode | oidc-gateway/src/token.rs:632-700 | a poll is a run of the system; its reply, of eight, is the one the code it read calls for, and tokens are for the polled device and client |
| Recovery.ReachableInv | oidc-gateway/src/store.rs:1808-1827 | the book-keeping of codes and of the calls' revisions holds in every state of any number of read-modify-writes |
| Recovery.Conservation | oidc-gateway/src/login.rs:676-715 | codes left plus codes redeemed plus codes discarded are the codes ever set up; redemptions and calls reporting success correspond one to one |
| Recovery.SuccessIsOneRemoval | oidc-gateway/src/login.rs:681-693 | the write of a successful redemption removes one occurrence of that code and nothing else |
| Recovery.RedeemAlone | oidc-gateway/src/login.rs:676-715 | alone, a code is redeemed exactly if it is stored, by taking out its first occurrence; otherwise nothing changes |
| Recovery.GivesUpAfterFive | oidc-gateway/src/store.rs:1808-1827 | a read-modify-write that gives up was beaten by five distinct other calls whose writes were committed after it began |
| RecoveryCalls.Users.UpdateUserRmw | oidc-gateway/src/store.rs:1808-1827 | the retry loop is a run of the system |
| RecoveryCalls.Users.RedeemCode | oidc-gateway/src/login.rs:676-715 | success is reported exactly if the removal was committed |
| RecoveryCalls.FindCode | oidc-gateway/src/login.rs:683-686 | the search finds the first position of the code, if any |
| Registration.RedirectUriMeaning | oidc-gateway/src/registration.rs:118-133 | a redirect URI is accepted exactly if it has no fragment and is https, or http to a loopback name closed by a slash, a colon or the end |
| Registration.EveryClientOk | oidc-gateway/src/registration.rs:172-759 | over every sequence of registrations, updates and deletions each registered client has validated, non-empty redirects and supported grants, "none" only without secret and keys, private_key_jwt only with keys (RFC 7591 section 2) |
| Registration.SecretFixed | oidc-gateway/src/registration.rs:603-648 | a secret is issued at registration only, and a client that has one never comes to use "none" |
| Registration.FieldsNamedOrKept | oidc-gateway/src/registration.rs:503-648 | an update gives each field it names its value and keeps all others, with the cases of an empty name, logout URI and algorithm |
| Registration.RegisteredAgain | oidc-gateway/src/registration.rs:312-346 | an accepted registration is accepted again as an update and changes nothing, exactly unless it has an empty logout URI |
| Registration.UpdatedTwice | oidc-gateway/src/registration.rs:503-648 | an accepted update is accepted again and then changes nothing |
| Registration.CheckRegistration | oidc-gateway/src/registration.rs:192-310 | the chain of checks accepts exactly the registrable documents |
| Registration.Registry.RegisterClient | oidc-gateway/src/registration.rs:172-352 | registration is one step of the system and stores exactly the accepted client |
| Registration.Registry.UpdateClient | oidc-gateway/src/registration.rs:477-657 | an update is accepted exactly if authorised and updatable, and then changes the named fields; a rejected one changes nothing |
| Registration.Registry.DeleteClient | oidc-gateway/src/registration.rs:709-747 | deletion happens exactly for an authorised client other than the built-in admin, and removes client and token |
| ClientAuth.Authenticator.AuthenticateClient | oidc-gateway/src/client_auth.rs:14-199 | success only by the registered method, or any if none is recorded, with a good proof of it and of no other, and always with one (RFC 6749 section 2.3) |
| ClientAuth.Authenticator.CheckAssertion | oidc-gateway/src/client_auth.rs:91-162 | an assertion passes exactly under the conditions of RFC 7523 section 3 as coded |
| ClientAuth.NoneIsPublic | oidc-gateway/src/token.rs:118-123 | the guards "confidential but none" behind authentication never fire |
| ClientAuth.CanAuthenticate | oidc-gateway/src/client_auth.rs:201-244 | some request authenticates a registered client by its method exactly if a secret method has a secret and private_key_jwt an RSA or EC key |
| ClientAuth.UpdateStrands | oidc-gateway/src/registration.rs:603-648 | an accepted update leaves a client that can never authenticate by its method exactly if the method is a secret one and no secret was issued, or private_key_jwt with no RSA or EC key |
| ClientAuth.UpdateLocksOut | oidc-gateway/src/registration.rs:603-648 | a registration with "none" and an update to client_secret_basic, both accepted, after which the client can never authenticate |
| ClientAuth.AssertionReuse | oidc-gateway/src/store.rs:2306-2316 | an assertion used once is good again exactly from 300 seconds later until it expires |
| Jwt.VerifyWithJwks | oidc-gateway/src/jwt.rs:267-319 | the candidate loop accepts exactly if a key of the right type, and of the named kid, made the signature |
| Jwt.VerifyTokenScoped | oidc-gateway/src/service_client.rs:17-90 | returns the claims exactly if signature, times, revocation, issuer, audience and type are accepted |
| Hooks.Accumulator.SetClaim | oidc-gateway/src/hooks.rs:130-161 | the accumulator never holds a reserved claim |
| Hooks.Accumulator.AddToTenant | oidc-gateway/src/hooks.rs:120-128 | nor a role outside the four known ones |
| Hooks.Accumulator.CreateTenant | oidc-gateway/src/hooks.rs:168-188 | nor a tenant with a malformed id or an empty name |
| Hooks.Store.ApplyOutcome | oidc-gateway/src/hooks.rs:272-420 | the handler computes the specified directory; if the stored user is missing, nothing changes |
| Hooks.Idempotent | oidc-gateway/src/hooks.rs:272-420 | applying an outcome again, with the user read afresh, changes nothing |
| Hooks.RolesKept | oidc-gateway/src/hooks.rs:382-412 | no membership changes its role, the first listed role wins for duplicates, other users are untouched |
| Hooks.TenantsNamed | oidc-gateway/src/hooks.rs:352-400 | existing tenants stay; one the script created has the names of the first entry for it, one only granted its id as both names; there are no others |
| Hooks.MembersHoused | oidc-gateway/src/hooks.rs:382-405 | every membership has its tenant, before and after |
| Hooks.UserAsTold | oidc-gateway/src/hooks.rs:275-350 | the stored user ends with the rights and status the outcome asks for |
| Claims.SurvivesIffReserved | oidc-gateway/src/hooks.rs:130-161 | a claim survives every list of hook claims exactly if its key is reserved |
| Claims.UnreservedComputed | oidc-gateway/src/token.rs:1102-1145 | a claim is computed for some login and yet replaceable by hooks exactly if it is one of six |
| Claims.BuildClaims | oidc-gateway/src/token.rs:1059-1192 | every reserved claim of both tokens is the computed one; any other is the last one hooks set, else the computed one |
| Claims.AccessAccepted | oidc-gateway/src/service_client.rs:48-90 | whatever hooks added, an access token is accepted exactly for its issuer, client and type, from 30 seconds before its issue to 3630 after, unless its user was revoked later |
| Claims.IdIsNoAccess | oidc-gateway/src/service_client.rs:48-90 | an ID token never passes as an access token |

## Left out

- KeyRingSafety.TokenVerifies: issuer, audience, type and revocation are checked in `Jwt`, not in the ring's runs; token times are those of `build_claims`.
- KeyRing: versions are unbounded, not 32-bit; a failed deserialisation or store error ends a call as failed.
- KeyRing: the administrative listing of keys and the single-key getters only repeat the reads modelled.
- RateLimit.CounterCountsAdmissions: nothing is stated of runs in which some operation comes after its window's margin; `RateLimitWindows.ExpiredWindowAdmitsAgain` shows why.
- AuthFlow: a request and a login are one step each; what two overlapping logins of one session could do is not modelled. Users withdrawing a consent.
- AuthFlow: the built-in admin client is a parameter; JSON parsing of the `claims` parameter, the ID-token hint's signature and revocation reach the decision as verdicts.
- AuthFlow: password, social and passkey checks before a login completes; SAML responses.
- Refresh: the first entry of a family is any login; that the code exchange and the device grant fill it from their own records, and only with the offline_access scope, is not stated.
- Refresh: after a rotation `delete_refresh_token` first reads the entry; it never finds a live one (`RefreshFamilies.OncePerToken`), so that read is no step of its own. Sign-on revocation and back-channel notices around a sweep.
- RefreshFamilies.ChainKeepsRoot: entries from before issue times were recorded (issue time 0) are not created by the model; the rule for them is in `Refresh.FamilyIssuedAt`.
- DeviceStatus.StatusMovesOnce: stated for runs without overlapping handlers on one device; `DeviceStatus.DecisionOverwrittenIff` is about all runs.
- Device: user-code normalisation, rate limiting of polls and page rendering.
- Recovery.Conservation: one user record; trimming and lower-casing of the typed code happen before the model.
- TotpReplay.AcceptedOnce: its proviso is a flag of the whole run; `TotpReplay.ReplayedFrom` and `TotpReplay.OnlyNoDelayIsSafe` are exact over all runs.
- Totp.VerifyTotpStep: HMAC-SHA1 is a parameter with a 20-byte result.
- ClientAuth: base64, JWT and JSON parsing; an assertion that does not parse is a flag.
- Claims.BuildClaims: a clock below 30 seconds gives "not before" 0 instead of wrapping; splitting a name or an e-mail address into its parts gives the profile; `at_hash` is added after these maps.
- Hooks: the script engine; a script is any sequence of calls of the accumulator.
- HTTP, HTML, themes, logging, metrics, audit, replication between regions, encryption at rest and the session-consistency cookie.
