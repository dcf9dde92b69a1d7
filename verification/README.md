# Remote operations control plane: a verified model

The repository runs commands on remote hosts on behalf of OAuth clients. A control plane authorizes requests, keeps
devices and targets, and asks a person to confirm what is dangerous; agents on the hosts carry operations out; two local
brokers run processes, one of them as root. This project models the parts of that system whose correctness does not show
in any single function, and proves what they promise over whole runs.

| source | modules |
|---|---|
| managed administration: approvals, tickets, the root broker | `ManagedAdminPolicy`, `ManagedAdminTicket`, `ManagedAdminApprovals`, `ManagedAdminBroker`, `ReplayLedger`, `AuthorityChain`, `SteadyRuns`, `SampleScene`, with `JsonText` and `Texts` below them |
| durable state, token endpoint, pairing | `StateStore`, `OAuth`, `OAuthRuns`, `DeviceStore`, `PairingRuns`, `PairingLimits` |
| agent gateway | `Gateway`, `GatewayRuns` |
| target registry and its approvals | `Targets`, `CapabilityBaseline`, `TargetApprovals`, `DeepHarnessRead`, `TargetRuns`, with `ApprovalUtils` |
| codecs | `OperationCodec`, `Quote`, `StreamDemux` |
| path checks | `Paths`, `CheckedPaths` |
| execution | `ExecSessions`, `WorkspaceEdit`, `Slots`, `BoundedOutput` |

## How the model is made

- Code that changes state step by step is a class with the source's fields and loops (`StateStore.DurableStore`,
  `DeviceStore.Registry`, `Gateway.Multiplexer`, `Targets.TargetRegistry`, `TargetApprovals.Desk`, `Slots.Semaphore`, …).
  Each method's `ensures` fixes the whole new state and the answer through a step function on values, on success and on
  every refusal; the runs are runs of these step functions. The table below lists the methods with loops, whose step
  functions are set or map comprehensions, and leaves out the straight ones.
- A run is a sequence of operations, processed one after the other. The `…Runs` modules and `AuthorityChain` prove
  statements about every run whose steps are possible: random identifiers are not drawn twice, a socket's handlers end
  with its close event, a signature under the control plane's key is one the control plane made. In runs of pairing the
  clock does not step back.
- SHA-256, HMAC and signatures are symbolic: injective constructors with disjoint images.
- Each clock reading is an input of the step that makes it. Where the code reads the clock twice in one request (the
  root broker), the step has two readings.
- Files are a second copy of the state. They are replaced whole, and a restart reads them back.
- Strings whose length in UTF-8 or UTF-16 matters are lists of code points (`Texts.Text`) or of code units
  (`WorkspaceEdit.Code`).

## What the proofs brought out

Some promises hold only under a condition. For these the condition is proved to be exact, and an input or a run that
fails is given beside it.

- **Replay table.** The broker prunes a nonce 60 s after its ticket expires, reading the clock once to validate and once
  to prune. Over the tickets it can admit, which live at most two minutes, the pruned table answers like a full set
  exactly on schedules where, for any two requests close enough to present one ticket, no pruning reading after the
  first and up to the second is more than 60 s above the later of their validating readings
  (`ManagedAdminBroker.BrokerSlackIsExact`). Over whole runs this is exact too: given the broker's readings, every run
  keeps one execution per approval if and only if they are steady in this sense for the ninety seconds of issued tickets
  (`SteadyRuns.SteadinessIsExact`). A clock that never runs backwards can break it: of two requests with the ticket of
  one approval both execute it exactly if the second prunes more than a minute past the expiry, which a jump between its
  own two readings allows (`AuthorityChain.ReplayExecutesExactly`, `AuthorityChain.ForwardJumpExecutesTwice`).
- **Authorization codes.** A code can be redeemed exactly if the resource was left out or sent literally; a padded or
  blank resource is accepted by the authorization endpoint and gives a code that never redeems
  (`OAuth.AuthorizedCodeRedeems`, `OAuth.PaddedResourceIsAccepted`).
- **Device limit.** Claiming a pairing looks at no limit. A run stays within the limit on devices exactly if every claim
  that makes a device finds room; a configuration guarantees it exactly if it allows one open pairing at a time; and
  devices and open pairings together always stay below the sum of both limits
  (`PairingLimits.DeviceLimitIsTheClaimsGuard`, `PairingLimits.DeviceLimitHoldsExactly`, `PairingLimits.CapacityHolds`,
  with a run in `PairingLimits.LimitCanBePassed`).
- **Pairing codes.** Redrawing takes the expiry instant as past and approving takes it as open. One code means two
  pairings exactly in the instant at which one expires and the other was created; a run is free of this exactly if no
  pairing is stored at the instant at which an unclaimed one of its code expires, and a configuration exactly if it
  allows one open pairing at a time (`PairingLimits.CodeAnswersExactly`, `PairingLimits.OneAnswerIsTheDrawsGuard`,
  `PairingLimits.OneAnswerHoldsExactly`, with a run in `PairingLimits.SameCodeCanAnswerTwice`).
- **SSH slots.** A woken caller goes on without looking at the count again. Running callers stay within the limit exactly
  in runs in which every woken caller resumes into a free slot (`Slots.RunningWithinExactly`); running and woken callers
  together do exactly if no newcomer passes woken callers that fill the limit (`Slots.WithinLimitExactly`). Such a
  newcomer makes one caller too many run, at every limit, unless it leaves in time (`Slots.LimitCanBePassed`,
  `Slots.PassingCanBeHarmless`).
- **Retried claims.** A claim repeated after it succeeded returns the same device and credential exactly until the
  pairing expires, collections and restarts notwithstanding, because pairings live at most an hour and claimed ones are
  kept for a day (`PairingRuns.RetryIsPaired`).

Other behaviour is not a broken promise, but is easily overlooked.

- **Refresh tokens.** A token is rotated before the requested resource is looked at, so naming another resource spends
  it for nothing (`OAuth.RefreshGrantExactly`), and for good (`OAuthRuns.SpentStaysSpent`).
- **Superseded sockets.** Their close leaves the successor live but rejects the requests already sent to it
  (`GatewayRuns.SupersededClose`).
- **workspace.edit.** With an empty text to look for, an edit inserts between all neighbours
  (`WorkspaceEdit.EmptyOldInserts`).
- **Truncation flag.** It says exactly that bytes were lost (`BoundedOutput.TruncatedMeansLost`), as long as no chunk is
  empty. Node's streams deliver no empty chunk, so this concerns the append function by itself: one for a full stream
  would raise the flag, whatever the cap (`BoundedOutput.EmptyChunkRaisesFlag`, `BoundedOutput.EveryCapIsAffected`).
- **Paths checked again.** The path an existing one resolves to passes the check again unchanged, unless it has a line
  break or is too long, which only the path as written is tested for (`CheckedPaths.ResolvedPassesAgain`).
- **Output paging.** A reader that follows the offsets skips exactly what left the window between two reads
  (`ExecSessions.NextPageFollows`).
- **Working directories.** The lexical test lets the root "/" admit "/" only (`Paths.AllowedCwdExactly`), while the
  containment test for configured paths lets it admit everything.

## Model

| member | source | states |
|---|---|---|
| AuthorityChain.ExecutedAsPreparedAndConfirmed | src/config/managed-admin-approvals.ts:136-244 | In every run of control plane, replaying agent and restarting broker, each execution goes back to an approval prepared and later confirmed by the same actor in the typed words; target, device, program, arguments, directory and timeout are those prepared; the confirmation came within ten minutes of the preparation and the validation within ninety seconds of the confirmation; the real directory is below a real root of the broker |
| AuthorityChain.OneExecutionPerApproval | src/privileged/managed-admin-broker.ts:141-148 | On a clock steady for tickets of ninety seconds, no two executions of a run come from one approval, whatever is replayed, and across broker crashes between recording the nonce and executing |
| AuthorityChain.HonestRunExecutes | src/config/managed-admin-approvals.ts:136-244 | The chain carries through: a granted action, confirmed in time and delivered to a broker that allows it, is executed, in a run that is possible |
| AuthorityChain.ReplayExecutesExactly | src/privileged/managed-admin-broker.ts:64-76 | One approval whose ticket is presented twice: the run is possible, and the action is executed twice, both times for that approval, exactly if the second request prunes more than a minute past the expiry |
| AuthorityChain.ForwardJumpExecutesTwice | src/privileged/managed-admin-broker.ts:64-76 | A possible run on a clock that only runs forward ends with two executions of one approval |
| AuthorityChain.AdmittedWasIssued | src/privileged/managed-admin-broker.ts:142-146 | A ticket the broker admits is one the control plane issued, field by field: the agent can only repeat |
| SteadyRuns.SteadinessIsExact | src/privileged/managed-admin-broker.ts:46-77 | For given readings of the broker's clock, all runs with these readings, whatever is prepared, confirmed, presented, replayed or restarted, keep one execution per approval if and only if the readings are steady for tickets of ninety seconds; supposed is only that some action can be executed at all |
| SteadyRuns.UnsteadyExecutesTwice | src/privileged/managed-admin-broker.ts:46-77 | For any other readings a possible run with exactly these readings executes one approval twice |
| SampleScene.SampleWorks | src/config/managed-admin-approvals.ts:136-244 | There is a world in which an action is granted, confirmed and accepted by a broker, so what the runs of the chain suppose can be met |
| ReplayLedger.SteadyAgrees | src/privileged/managed-admin-broker.ts:46-76 | On a schedule steady for the life of the tickets the pruned table accepts and rejects every attempt exactly as a set that is never pruned |
| ReplayLedger.SlackIsExact | src/privileged/managed-admin-broker.ts:52-76 | For a schedule of clock readings and a longest life of tickets, agreement on all choices of tickets, and equally on those of exactly that life, holds if and only if the schedule is steady for that life: the 60 s slack is derived, not assumed |
| ReplayLedger.AttackSucceeds | src/privileged/managed-admin-broker.ts:64-76 | A gap beyond the slack, between two requests close enough for one ticket to be neither from the future nor expired, lets a ticket of exactly the given life through twice |
| ReplayLedger.BoundedRegressIsSteady | src/privileged/managed-admin-broker.ts:52-54 | A clock that never falls more than 60 s behind an earlier pruning reading is steady for every life |
| ReplayLedger.ForwardJumpReplays | src/privileged/managed-admin-broker.ts:64-73 | A clock that only runs forward can still let a ticket through twice, by a jump inside one request |
| ReplayLedger.AcceptedOnce | src/privileged/managed-admin-broker.ts:64-69 | On a steady schedule no nonce is accepted twice |
| ManagedAdminTicket.NormalizeYieldsNormal | src/privileged/managed-admin-ticket.ts:42-70 | Whatever JSON comes in, only a ticket meeting all ten field conditions comes out |
| ManagedAdminTicket.NormalizePrinted | src/privileged/managed-admin-ticket.ts:42-70 | A printed ticket normalizes exactly when it meets the conditions, and then to itself |
| ManagedAdminTicket.NormalizeIdempotent | src/privileged/managed-admin-ticket.ts:42-86 | Normalizing a normalized ticket changes nothing |
| ManagedAdminTicket.CanonicalRoundTrip | src/privileged/managed-admin-ticket.ts:72-86 | The canonical bytes of any ticket, strings escaped as in section 7 of RFC 8259 and encoded in UTF-8, read back as that ticket |
| ManagedAdminTicket.CanonicalInjective | src/privileged/managed-admin-ticket.ts:72-86 | Different tickets have different canonical bytes |
| ManagedAdminTicket.OneSignatureOneTicket | src/privileged/managed-admin-ticket.ts:88-104 | Of the tickets normalized from any two bodies at most one verifies under one signature and key |
| ManagedAdminTicket.SignedVerifies | src/privileged/managed-admin-ticket.ts:88-104 | What is signed verifies under the key derived from the same secret |
| JsonText.ReadTextOfQuote | src/privileged/managed-admin-ticket.ts:74-85 | A JSON string of any code points, lone surrogates included, reads back from its encoded bytes |
| JsonText.ReadIntOfDecimal | src/privileged/managed-admin-ticket.ts:74-85 | A decimal integer reads back before anything that is not a digit |
| ManagedAdminApprovals.RecheckIsRegrant | src/config/managed-admin-approvals.ts:210-220 | A confirmation passes its checks exactly when the stored action would be granted anew |
| ManagedAdminApprovals.GrantedTicketIsNormal | src/config/managed-admin-approvals.ts:217-241 | Every ticket the control plane signs passes the broker's normalization |
| ManagedAdminApprovals.ConsumeExactly | src/config/managed-admin-approvals.ts:185-244 | A ticket is issued exactly for a pending, unexpired approval confirmed by its own actor for its own target; it is for the prepared action, verifies, and uses the approval up |
| ManagedAdminApprovals.ControlPlane.PurgeExpired | src/config/managed-admin-approvals.ts:42-46 | Exactly the expired approvals go |
| ManagedAdminBroker.AdmittedIsLocal | src/privileged/managed-admin-broker.ts:70-77 | An admitted ticket is for this device, unexpired, for a configured program that is not hard-denied, in a resolved directory below a real root |
| ManagedAdminBroker.AdmitsExactly | src/privileged/managed-admin-broker.ts:70-77 | What is admitted is exactly what normalizes, verifies, is acceptable on this host and is in time by the replay ledger's measure, and such a ticket lives at most two minutes |
| ManagedAdminBroker.BrokerSlackIsExact | src/privileged/managed-admin-broker.ts:46-76 | The slack is exact over the tickets the broker can admit |
| ManagedAdminBroker.Broker.LoadReplay | src/privileged/managed-admin-broker.ts:46-56 | The loaded table is the file without entries more than 60 s past expiry |
| ManagedAdminBroker.Broker.ConsumeNonce | src/privileged/managed-admin-broker.ts:64-69 | A nonce is refused if recorded, and recorded in the file otherwise |
| StateStore.DurableStore.PrunePendingClients | src/state/store.ts:138-151 | Exactly the never activated clients older than their time to live go |
| StateStore.DurableStore.RevokeAllClients | src/state/store.ts:180-194 | All clients and sessions are revoked; the count is of clients that were not |
| StateStore.DurableStore.FindSessionByRefreshToken | src/state/store.ts:209-211 | The session found is one with the token's hash; none means there is none |
| OAuth.CodeGrantExactly | src/auth/oauth.ts:154-161 | A code grant issues tokens exactly when client, code, redirect, PKCE verifier (section 4.6 of RFC 7636) and resource all match in time; the code is gone either way |
| OAuth.AuthorizedCodeRedeems | src/auth/oauth.ts:141-161 | After an accepted authorization the code can be redeemed exactly if the resource was left out or sent literally and the challenge has a verifier |
| OAuth.PaddedResourceIsAccepted | src/auth/oauth.ts:141-161 | With a blank before the resource, or for a resource, the authorization is accepted as well, and its code never redeems |
| OAuth.RefreshGrantExactly | src/auth/oauth.ts:163-172 | A refresh token of an active session of the client rotates, and yields tokens unless another resource was named; otherwise nothing changes |
| OAuthRuns.GrantedOnce | src/auth/oauth.ts:156-171 | In every run each code opens at most one session and each refresh token is redeemed at most once (sections 4.1.2 and 6 of RFC 6749) |
| OAuthRuns.SpentStaysSpent | src/state/store.ts:200-217 | A code once presented by a live client and a refresh token once rotated out never match again, in memory or on file, whatever the request was answered, refusals for another resource included |
| OAuthRuns.SpentOnce | src/state/store.ts:200-217 | In every run each code is consumed at most once and each refresh token rotated at most once, whatever the answers |
| OAuthRuns.SessionsStayDistinctAndOwned | src/state/store.ts:138-151 | In every reachable state refresh hashes are pairwise distinct and every session's client record is present |
| OAuthRuns.ClientLimitHolds | src/state/store.ts:153-163 | In every run no more clients are registered than the limit allows, in memory and on file |
| OAuthRuns.RevocationIsPermanent | src/state/store.ts:173-240 | After a revocation no access token of the client or session verifies in any later state at any time, across rotations, grants, collections and restarts |
| OAuthRuns.FileAgrees | src/state/store.ts:114-136 | In every reachable state memory and file agree on a stored session for all that its later checks read |
| OAuthRuns.CollectionAndRestartAreInvisible | src/state/store.ts:342-352 | A collection or restart inserted anywhere changes neither any later activity check of a session stored then nor whether a later redemption on it succeeds |
| DeviceStore.Registry.CreatePairing | src/state/store.ts:302-314 | Lapsed pairings go, both limits are checked, codes are drawn until one is free, and the pairing is stored under the first free one, in memory and on file |
| DeviceStore.Registry.ApprovePairingByCode | src/state/store.ts:316-319 | A pairing that answers to the code is approved; none means that none answers |
| DeviceStore.Registry.AuthenticateDeviceToken | src/state/store.ts:337-337 | The device found is unrevoked and bears the token; none means that none does |
| DeviceStore.Registry.DropOldPairings | src/state/store.ts:345-345 | Exactly the pairings a day past claim or expiry go, and the flag says whether there were any |
| PairingRuns.ClaimsAgree | src/state/store.ts:320-336 | Successful claims of one pairing return one device and one credential, across restarts too; of two pairings, different devices |
| PairingRuns.RetryIsPaired | src/state/store.ts:320-345 | Once claimed, a pairing answers every claim with the same poll token with the same device and credential exactly until it expires, whatever is collected, changed or restarted in between |
| PairingRuns.TokenAuthenticatesUntilRevoked | src/state/store.ts:320-340 | From the claim on, across restarts, the credential authenticates its device, no other, and exactly until it is revoked |
| PairingRuns.RevokedStays | src/state/store.ts:337-340 | A revoked device stays revoked in every later state, in memory and on file, across restarts |
| PairingRuns.PairedOnlyAfterApproval | src/state/store.ts:316-324 | A claim that pairs was preceded by an approval of that pairing |
| PairingLimits.CapacityHolds | src/state/store.ts:302-336 | In every run open pairings never exceed their limit, and with the unrevoked devices they never exceed the sum of both limits less one |
| PairingLimits.DeviceLimitIsTheClaimsGuard | src/state/store.ts:305-331 | A run stays within the limit on devices at every moment if and only if each claim that makes a device finds fewer than allowed |
| PairingLimits.DeviceLimitHoldsExactly | src/state/store.ts:305-331 | All runs stay within the limit on devices if and only if the configuration allows one open pairing at a time |
| PairingLimits.LimitCanBePassed | src/state/store.ts:305-331 | With more than one open pairing allowed, a possible run ends with one device more than the limit, whatever the limits |
| PairingLimits.CodeAnswersExactly | src/state/store.ts:309-317 | In every reachable state two pairings answer to one code if and only if both are unclaimed under it and one expires at the instant at which the other was created, which is now |
| PairingLimits.OneAnswerIsTheDrawsGuard | src/state/store.ts:309-317 | In a run no code ever means two pairings if and only if no pairing is stored at the instant at which an unclaimed one of its code expires |
| PairingLimits.OneAnswerHoldsExactly | src/state/store.ts:307-317 | In all runs no code ever means two pairings if and only if the configuration allows one open pairing at a time |
| PairingLimits.SameCodeCanAnswerTwice | src/state/store.ts:309-317 | A possible run of two creations at whose end one code answers for both pairings |
| Gateway.Multiplexer.RejectPendingForDevice | src/agent/gateway.ts:36-41 | Exactly the device's pending requests are finished with the reason, all others untouched |
| Gateway.Multiplexer.Sweep | src/agent/gateway.ts:110-117 | Exactly the live sockets with a refused token or 90 s of silence are closed |
| GatewayRuns.SettledByFirstEnding | src/agent/gateway.ts:82-135 | In every run a dispatched request is pending with an armed timer until the first result from a socket of its own device, timeout, send failure or drop; from then on it is neither, and holds that outcome and never another |
| GatewayRuns.EndingsAgree | src/agent/gateway.ts:59-106 | What ends a request can be read off the history of upgrades alone: the maps never attribute a socket to another device |
| GatewayRuns.TimeoutIsNotEarly | src/agent/gateway.ts:126-130 | A timeout comes no earlier than the limit sent to the agent plus a second, and only to an unsettled request |
| GatewayRuns.NothingPendingAfterDrop | src/agent/gateway.ts:103-106 | After a socket of the device closed, or the device was disconnected, none of its requests is pending |
| GatewayRuns.SupersededClose | src/agent/gateway.ts:103-106 | A superseded socket's close leaves its successor live and online, and rejects the requests sent to it |
| GatewayRuns.LiveIsLastUpgrade | src/agent/gateway.ts:59-106 | A socket is a device's live one if and only if it was the last upgraded for it and neither closed nor was disconnected since |
| GatewayRuns.OpenSocketIsLive | src/agent/gateway.ts:59-63 | A device has at most one open socket, the live one |
| GatewayRuns.SweepClosesStaleSockets | src/agent/gateway.ts:110-117 | A sweep leaves an open socket open exactly if its token is accepted and it was heard within 90 s |
| Targets.InsertsExactly | src/config/targets.ts:82-93 | Loading succeeds exactly on new, pairwise distinct identifiers of targets that have their device, and the table then holds them and nothing else |
| Targets.UpsertExactly | src/config/targets.ts:96-118 | An upsert goes through exactly for a well-shaped agent target that is not static; it replaces that entry of the overlay only, and the reloaded registry answers with it |
| Targets.LookupExactly | src/config/targets.ts:120-121 | A consistent registry answers with the static target, or else the overlay's, and nothing else |
| Targets.TargetRegistry.LoadRegistry | src/config/targets.ts:78-95 | Both loops together give the loaded table or the first error, which leaves the previous table in place |
| CapabilityBaseline.PresetsDiffer | src/config/capability-baseline.ts:71-172 | Two presets grant the same authority only if they are the same |
| CapabilityBaseline.ValidatesOwnPresetOnly | src/config/capability-baseline.ts:201-228 | A built target validates against the preset it was built from and no other |
| TargetApprovals.RecheckIsRegrant | src/config/target-approvals.ts:103-113 | Applying repeats every check of preparing except that of the authentication mode |
| TargetApprovals.ApplyExactly | src/config/target-approvals.ts:90-115 | An approval is applied exactly when pending, unexpired, confirmed by its own actor, still qualified and not static; the registry changes by the prepared target only, and a refused approval stays |
| DeepHarnessRead.ApplyReadExactly | src/config/deepharness-read-approval.ts:48-60 | An application goes through exactly under the stated conditions, and changes one field of one overlay entry |
| DeepHarnessRead.ReadDesk.PrepareRead | src/config/deepharness-read-approval.ts:28-46 | The baseline is checked first, expired approvals go, and the new one is bound to the device |
| TargetRuns.RegistryIsStaticAndLastWritten | src/config/targets.ts:78-118 | At every moment of every run, restarts included, the loaded registry is the static targets, which never change, and the target last written under each other name |
| TargetRuns.WrittenFromOwnApproval | src/config/target-approvals.ts:90-115 | Whatever is written was prepared, at most ten minutes earlier, by the actor who confirmed it in the typed words |
| TargetRuns.AppliedOnce | src/config/target-approvals.ts:114-115 | An approval is applied at most once, of either kind |
| TargetRuns.DynamicTargetsArePresets | src/config/deepharness-read-approval.ts:9-60 | Every dynamic target of every run has exactly the authority of one preset, or of the read-only preset and the two fixed containers |
| TargetRuns.ManagedAdminOnlyByPreset | src/config/managed-admin-approvals.ts:59-75 | A dynamic target that managed administration accepts was built from the managed-admin preset, with the default programs and directories |
| TargetRuns.RegistryIsShaped | src/config/targets.ts:7-43 | The registry of a run meets what the managed-admin model expects of its world |
| OperationCodec.ParseOfPrint | src/agent/operations.ts:52-114 | Reading the printed form of any operation that prints gives the operation back, decimal arguments included: the ordered chain is unambiguous on printed lists |
| OperationCodec.PrintIsInjective | src/agent/operations.ts:84-114 | No two operations print alike |
| OperationCodec.ReadIsPrintable | src/agent/operations.ts:52-114 | Whatever is read can be printed, except container execution and actions |
| OperationCodec.CanonicalFormIsStable | src/agent/operations.ts:52-114 | Printing what was read gives a list that reads as the same operation and prints as itself |
| OperationCodec.GluedWordsRead | src/agent/operations.ts:55-63 | For each of the five operations recognized by joined words, any two neighbouring words written as one with a blank between them read the same, wherever they stand |
| OperationCodec.OneWordListsRunning | src/agent/operations.ts:63-63 | The single word "ps -q" reads as the list of running containers |
| Quote.ShellReadsArguments | src/lib/quote.ts:11-17 | Word splitting and quote removal as in sections 2.2.1, 2.2.2 and 2.3 of the POSIX.1-2017 Shell Command Language give back exactly the arguments, for every list without NUL, and for no other |
| Quote.CommandsDiffer | src/lib/quote.ts:11-17 | Different argument lists give different commands |
| StreamDemux.DemuxDockerStream | src/docker/read-proxy.ts:152-163 | The loop returns what the frames of the body say |
| StreamDemux.DemuxesFrames | src/docker/read-proxy.ts:152-163 | Any frames and an incomplete remainder give the payloads tagged 2 and the others, each in order; the remainder matters only when there is no frame, and then is all of standard output |
| StreamDemux.ParseDecomposes | src/docker/read-proxy.ts:154-160 | Every body is such a sequence of frames and a remainder |
| StreamDemux.BigEndianRoundTrip | src/docker/read-proxy.ts:155-155 | A 32-bit length reads back from its four bytes |
| Paths.AcceptsExactlyContained | src/security/paths.ts:31-42 | With canonical roots a path is accepted exactly when it is absolute, free of "..", not secret and its segments extend a root's |
| Paths.AcceptedIsStable | src/security/paths.ts:31-42 | The path returned has no "." or ".." and checking it again returns it unchanged |
| Paths.RenderUnder | src/security/paths.ts:40-40 | On paths written as segments the string prefix test is exactly the prefix order of segments |
| Paths.AllowedCwdIsContained | src/privileged/managed-admin-policy.ts:19-27 | An allowed directory's segments extend a root's and contain no ".." |
| Paths.AllowedCwdExactly | src/privileged/managed-admin-policy.ts:19-27 | On canonical paths the test is containment, except that the root "/" admits only itself |
| CheckedPaths.ResolvedIsContained | src/security/paths.ts:9-22 | A path allowed through a remote resolution is the resolved one, not secret, free of ".." and below a root |
| CheckedPaths.ResolveCheckedGitRepo | src/security/paths.ts:23-30 | A repository is allowed exactly when some configured one resolves to the same path |
| CheckedPaths.FindNearestExisting | src/exec/broker.ts:43-51 | The loop finds the nearest existing ancestor, or that there is none |
| CheckedPaths.NearestIsLongest | src/exec/broker.ts:43-51 | It is the path as written if that exists, and otherwise its longest existing prefix |
| CheckedPaths.JoinOfRelative | src/exec/broker.ts:64-65 | Joining a path with the relative form of another gives the other back |
| CheckedPaths.NewPathExactly | src/exec/broker.ts:52-68 | A new path passes exactly when its nearest existing ancestor, asked for with the slash at its end if it is the path itself, resolves into a root and the path as written lies in the same root; it is returned as written, without that slash, and leads inside the root |
| CheckedPaths.ExistingPathExactly | src/exec/broker.ts:52-60 | An existing path, asked for with the slash at its end if it has one, passes exactly when it resolves into a root and is not secret |
| CheckedPaths.ResolvedPassesAgain | src/exec/broker.ts:34-60 | What an existing path resolved to passes again and is returned unchanged, exactly if it is on one line and not too long |
| ExecSessions.WindowIsLast | src/exec/broker.ts:90-94 | The output window is the last 1048576 code units of everything written, although its length is measured in bytes |
| ExecSessions.PagesCoverWindow | src/exec/broker.ts:136-140 | Reading on from page to page gives the rest of the window, whole and once |
| ExecSessions.PageIsPiece | src/exec/broker.ts:136-140 | A page is a piece of everything written, and the flag says whether more of it follows |
| ExecSessions.NextPageFollows | src/exec/broker.ts:90-94 | The next page starts where the last one ended exactly if the window did not move, and otherwise skips what left it |
| ExecSessions.CapacityHolds | src/exec/broker.ts:128-133 | In every run no more sessions are active than configured |
| ExecSessions.Sessioner.ActiveSessionCount | src/exec/broker.ts:95-99 | The count is the number of sessions not closed |
| ExecSessions.Sessioner.Reap | src/exec/broker.ts:100-103 | Exactly the sessions closed for more than half an hour go |
| WorkspaceEdit.EditsExactly | src/exec/broker.ts:117-124 | With a text to look for, an edit succeeds exactly when it occurs the expected number of times, and replaces these leftmost occurrences and nothing else; a mismatch leaves the file unchanged |
| WorkspaceEdit.SplitJoinReplaces | src/exec/broker.ts:120-122 | Split and join replace exactly the leftmost occurrences that do not overlap, and count them |
| WorkspaceEdit.SplitThenJoin | src/exec/broker.ts:120-122 | Splitting and joining with the same text is the identity |
| WorkspaceEdit.PiecesAreFree | src/exec/broker.ts:120-120 | No piece contains the separator |
| WorkspaceEdit.EmptyOldInserts | src/exec/broker.ts:117-124 | With an empty text an edit succeeds exactly when one less than the file's length is expected, and inserts between all neighbours |
| Slots.NoSlotIsWasted | src/ssh/pool.ts:15-15 | While anyone waits, running and woken callers together fill the limit |
| Slots.WokenInArrivalOrder | src/ssh/pool.ts:15-15 | Waiting callers are woken in arrival order, and whoever was not woken still waits |
| Slots.QueuedOnce | src/ssh/pool.ts:15-15 | No caller waits twice, so none is woken twice |
| Slots.WithinLimitExactly | src/ssh/pool.ts:15-15 | Running and woken callers together stay within the limit throughout a run exactly when no newcomer passes woken callers that fill it, and then running ones do |
| Slots.RunningWithinExactly | src/ssh/pool.ts:15-15 | Running callers stay within the limit throughout a run if and only if every woken caller finds a free slot when it resumes |
| Slots.WokenGoOn | src/ssh/pool.ts:15-15 | From any point of a run, letting the woken callers go on has them all running at once |
| Slots.LimitCanBePassed | src/ssh/pool.ts:15-15 | At every limit a possible run ends with one caller more running |
| Slots.PassingCanBeHarmless | src/ssh/pool.ts:15-15 | At every limit there is a run in which a newcomer passes woken callers that fill the limit, and no more than the limit ever run |
| BoundedOutput.KeepsFirstBytes | src/ssh/pool.ts:21-21 | However a stream is cut into chunks, its buffer holds its first bytes up to the cap; the common flag is raised exactly on overflow or a chunk for a full stream |
| BoundedOutput.TruncatedMeansLost | src/agent/operations.ts:309-311 | Without empty chunks the flag says exactly that bytes were lost |
| BoundedOutput.EmptyChunkRaisesFlag | src/agent/operations.ts:309-311 | The append function alone, for every cap and every run that lost nothing: an empty chunk raises the flag exactly if its stream is full, and still nothing is lost |
| BoundedOutput.EveryCapIsAffected | src/agent/operations.ts:309-311 | For every positive cap there are such chunks: nothing lost and the flag raised |

## Left out

- Numbers beyond exact doubles: fields of tickets are integers of any size; JavaScript rounds above 2^53.
- Coercion of JSON values by `String` and `Number`: functions given to the model, which leave strings and integers as they are.
- A lone high surrogate directly before a lone low one is two code points in the model and one character in JavaScript.
- Transport limits and malformed requests of the brokers (`REQUEST_TOO_LARGE`, `INVALID_JSON`), and the process a broker runs.
- A replay file that cannot be parsed: the broker starts from an empty table.
- The clock of the token endpoint is read once per request; the code reads it again in places, within one request.
- `touchClient`, target switches, usage counters and target activity of the state store. A switch is an input of the managed-admin world.
- DeviceStore.Registry.CreatePairing: the codes drawn are an input, one of which is free; otherwise the source draws forever.
- Rate limiters, forms, redirects, cookies and the remaining Express plumbing.
- Gateway.Multiplexer.OnMessage: the acknowledgements, error messages and pings sent to an agent are not modelled, because no state depends on them; what a heartbeat stores is modelled in `DeviceStore`.
- The operation inside a request sent by `Gateway.Multiplexer.Dispatch`.
- ExecSessions.Sessioner.Start: whether directory, program and arguments pass their checks is an input; the directory check is modelled in `CheckedPaths`.
- The order of the overlay file and of target listings: sorting is by the host's collation, here some permutation.
- Schema checks of target fields other than the identifier and device: the callers modelled only write values that meet them.
- The summary texts of approvals and their redaction.
- OperationCodec.ParseOfPrint: how JavaScript reads a number from text is a function given to the model, assumed only to read decimal integers; whether a path is secret is a predicate.
- Operations outside the argument-list codec (workspace, process, paperclip, openhands, deepharness, docker image and candidate operations).
- StreamDemux.DemuxDockerStream: works on bytes; decoding each payload as UTF-8 on its own is not modelled, because characters split between frames do not concatenate.
- CheckedPaths.NewPathExactly: the file system does not change during a check, and a root that does not resolve is not modelled.
- WorkspaceEdit.EditsExactly: is about the decoded text. The file is read and written as UTF-8, so on any successful edit bytes that are not UTF-8, and surrogates that an insertion separates, become replacement characters on file.
- BoundedOutput.KeepsFirstBytes: decoding the buffers as UTF-8 is not modelled.
- `process.input`, `process.kill`, `process.list`, and the other workspace operations, which only pass their checked arguments on.
- The SSH connection pool, host keys and timeouts around the semaphore.
- Portainer, OpenHands, Paperclip and DeepHarness clients, installers and command-line tools.
