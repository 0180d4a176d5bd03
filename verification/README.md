# Wharf: verified protocols

Wharf is an SSH client with a terminal UI. Under the UI sit several cores made of
protocols and state; this project models them in Dafny and proves what they are
for. Each core has its own files and stands alone.

| core | files | form |
|---|---|---|
| Personal vault sync: devices around one versioned blob | `SyncMachine`, `SyncSafety`, `SyncConvergence`, `SyncEngine` | step machine of N devices and a compare-and-swap server; engine class |
| Shared projects: the same per project, with a data key that members lose and rotate | `ProjectMachine`, `ProjectSafety`, `ProjectKeys`, `ProjectPasses`, `ProjectCalls`, `ProjectEngine` | step machine; classes |
| Remote-access holder: slow minting outside the lock, an epoch decides who publishes | `HolderMachine`, `HolderSafety`, `GrantHolder` | step machine; class |
| Remote-access grant: concurrent commands racing revocation, with counters and an audit trail | `GateMachine`, `GateSafety`, `GrantGate` | step machine; class |
| Audit log: capped, folding, newest first | `AuditLog` | class against a fold |
| Grant handshake: mutual challenge-response | `Handshake`, `HandshakeSafety`, `Dialling` | step machine with an adversary; methods over connections |
| One remote command at the client | `CommandPump` | loop against a function |
| Exec multiplexing over the session socket | `ExecMachine`, `ExecSafety`, `ExecMux` | step machine; class |
| Framing and its size bounds | `Framing`, `FrameSizes` | class over a byte stream |
| Scrollback ring and live handover | `Scrollback`, `Handover` | class over an array; heap of terminals |
| Shell quoting and the remote command line | `ShellWords`, `ShellQuote`, `RemoteArgs` | tokenizer after POSIX.1-2017 XCU sections 2.2, 2.3 and 2.6.7; printer and parser |
| Vault merge, import and edits | `Documents`, `Merge`, `Store` | loops against folds; class |
| Attach hotkeys | `Hotkeys` | class against a stream function |
| Termius decoders | `ByteReader`, `CloneValues`, `CloneDecoder`, `CloneReader`, `CloneRoundTrip`, `ClonePanics`, `CloneEndless`, `WriteBatch` | cursor classes against recursive readers; maps that share and contain one another |

How concurrency is modelled. A `...Machine` module is a transition system: a world,
the actions that can happen, and `Run`, the world after any sequence of enabled
actions. Every interleaving at the granularity of the code's critical sections and
requests is such a sequence, so a lemma about `Run` is about every run. The class
beside it is the code: its methods update its own fields step by step, take one
machine action where the code takes its lock or makes its request, let the others
take any number of actions wherever the code has let go, and are proved to leave
their fields as the machine has them.

Results worth knowing about the code as it is:

- `DecodePanicsIff`, `BatchPanicsIff`: the Termius decoders convert unsigned 64-bit
  lengths to signed ones, and some inputs make them panic instead of returning an
  error: a back-reference or an array length of 2^63 or more, and a run whose length
  is below 2^63 but whose end is not. The lemmas say exactly which inputs those are;
  `HugeReferencePanics`, `HugeArrayPanics`, `WrappingStringPanics` and
  `WrappingKeyPanics` prove it for every such number, `SmallReferencePanics`,
  `SmallArrayPanics` and `SmallStringPanics` for inputs of a dozen bytes.
  `ShortVarintsNeverPanic` gives a guard that could be checked beforehand: no eight
  bytes of 0x80 or more in a row.
- `DecodeIsEndlessIff`: the structured-clone decoder prints the key of every field, and
  a key can refer to a map that contains itself; printing that never comes back, and
  the stack it uses up ends the process. It happens if and only if decoding gets to a
  field whose key, as the maps are filled by then, leads to a map that contains itself
  (`PrintsIff`). `SelfKeyedNeverEnds` proves it of every object that has itself under
  some name and then as a key, `SmallSelfKeyedNeverEnds` of twelve bytes;
  `OverwrittenIsMade` shows that the moment counts. `NoReferenceAlwaysEnds` gives a
  guard: an input without the byte 0x5e is decoded to an end. With both guards a value
  or an error is all that can come of it (`GuardedInputIsDecoded`).
- `RevokedIsAccurateIff`: `Toggle` on the current host reports that host as revoked,
  but what it clears is whatever is current by then. It withdraws a grant on the host
  it names if and only if the epoch has not moved in between or a grant on that host
  is current again; if nothing is current it withdraws nothing. Each case happens:
  `RevokedCanNameTheWrongHost`, `RevokedCanWithdrawNothing`,
  `RevokedCanBeRightThoughOvertaken`. In all of them the grant it had seen is
  withdrawn (`RevokedGrantIsWithdrawn`).
- `LateStartIff`, `CommandStartsAfterSecondClose`: a second `Close` returns before the
  first has cancelled the context, and a command that passed the gate can then still
  start, as a concrete run shows for the machine and `LateStart` for the class;
  exactly the commands already behind the gate can, and only until the cancel.
- `RemovalKeepsEditIff`, `RemovalCanDropEdit`: removing a project member with a local
  edit uploads the edit if and only if the device was up to date (or the edit is what
  the server already holds); after a lost race the retry re-seals the server's
  document, reports that as pushed, and the edit is on no version.
- `PrintedLineParsesIff`: the printed `--remote <token> -- <command>` line parses back
  exactly when the token is not `--` and not spelled like an option. The comments at
  cmd/wharf/remote.go:129 and :171 call tokens base64url; `newGrant` mints lower-case
  base32, for which `MintedTokensAreSafe` shows the condition always holds.

Taken as given: SHA-256 of payloads is injective (`Sha256` is a constructor); a sealed
blob opens with its key and no other; a MAC exists only if a holder of the token
computed it (`Mac` is a constructor); ids, nonces, keys and command ids are fresh; the
server numbers versions 1, 2, 3 and accepts a write exactly when it holds the expected
one; reading the vault file returns the blob of the payload passed to the call.

## Model

| member | source | states |
|---|---|---|
| SyncSafety.NoSilentOverwrite | internal/sync/engine.go:401-514 | in every run of N devices, a write that lands replaces exactly the newest version, and that version was absent, or was the one the writer had agreed with, or had no hosts, or is one whose conflict its user was shown and chose to overwrite |
| SyncSafety.NoSilentDiscard | internal/sync/engine.go:401-514 | a remote payload is offered for adoption only if it is a stored version and the local payload is itself a stored version, has no hosts, or its user chose the remote side |
| SyncSafety.AgreementIsTrue | internal/sync/engine.go:529-535 | in every run each device's recorded version and fingerprint name a version the server has and its content |
| SyncSafety.SyncedMeansEqual | internal/sync/engine.go:417-484 | a call that reports in sync at, or pushed, a version leaves the server's copy of that version equal to the caller's payload, and the device recording so |
| SyncSafety.AttemptsAreBounded | internal/sync/engine.go:463-514 | a Sync makes at most two write attempts, a Resolve at most three |
| SyncSafety.PendingWasShown | internal/sync/engine.go:444-460 | a stashed remote side is always one whose conflict the user was shown earlier in the run |
| SyncSafety.JudgeIsSound | internal/sync/engine.go:417-460 | each verdict of a pass is justified by server history: a write is aimed at the agreed or an empty version, an adoption loses nothing, a conflict is a real one |
| SyncSafety.RunKeepsInv | internal/sync/engine.go:236-535 | true bookkeeping, true stashes, justified writes and honest results hold after every run |
| SyncMachine.CallStepsCountDown | internal/sync/engine.go:401-514 | every step of a call brings it nearer its end, whatever other devices do in between: no call retries forever |
| SyncMachine.FinishedIsRun | internal/sync/engine.go:401-514 | finishing a call without interference is itself a run of the machine |
| SyncConvergence.TurnOutcome | internal/sync/engine.go:401-460 | what an undisturbed pass reports, and what it leaves on the server and on the device, case by case |
| SyncConvergence.PassIff | internal/sync/engine.go:401-484 | an undisturbed pass, from any state between calls: in sync, adopted, pushed or conflict, each exactly when due by server history, recorded session and payload (with the remote moved to other content: adopted if and only if unedited or without local hosts, pushed if and only if edited with hosts here and none there, asked if and only if edited with hosts on both sides), and what each leaves on server, session and stash |
| SyncConvergence.AnswerIff | internal/sync/engine.go:489-514 | the answer to a conflict, undisturbed: taking the remote side is exactly the stashed payload at the stashed version, with nothing written; keeping the local one stores exactly that as the next version and clears the stash if the stashed version is the newest, and otherwise drops the stash and comes to a pass; with no stash it is a pass |
| SyncConvergence.PushingComesTo | internal/sync/engine.go:463-514 | an upload against the newest version is stored as it is; against another it is not, and comes to a further pass once, or to a reported lost race |
| SyncConvergence.FaultComesTo | internal/sync/engine.go:538-553 | a fault in reading or in writing ends the call, says which fault it was, and changes nothing, except that a dead session signs the device out and drops its stash |
| SyncConvergence.RepeatIsNoOp | internal/sync/engine.go:417-422 | on a settled device a pass changes neither the server, nor the device, nor the payload, and reports in sync |
| SyncConvergence.SecondTurnIsNoOp | internal/sync/engine.go:401-484 | whatever a pass came to, an immediate second one changes neither the server, nor the payload, nor the device's record and stash; it reports the same conflict, or in sync, the empty case included |
| SyncConvergence.UneditedNeverPushes | internal/sync/engine.go:417-460 | a device without edits ends in sync or adopts; it never writes |
| SyncConvergence.FleetConverges | internal/sync/engine.go:401-460 | when no device has edits, one turn each makes every payload equal to the newest version, and every device record so |
| SyncConvergence.EditorIsHeard | internal/sync/engine.go:423-425 | an up-to-date device's edit is on the server after its turn, as it stands, in at most one new version |
| SyncConvergence.EditReachesEveryone | internal/sync/engine.go:401-460 | and one turn of every device later, every device has exactly that edit |
| SyncEngine.Engine.Sync | internal/sync/engine.go:388-396 | signed out it reports so and changes nothing; undisturbed its result, and what it leaves on the server, in the session and in the stash, are those of the case table of `PassIff`; disturbed or not, the call is a run of machine steps and its result the machine's |
| SyncEngine.Engine.SyncLocked | internal/sync/engine.go:401-460 | one pass: its fields end as the machine's device has them, whatever the server and the other devices did; undisturbed, result and effects are those of the case table |
| SyncEngine.Engine.Evaluate | internal/sync/engine.go:406-460 | what weighing the local payload against the vault read comes to, whatever the others do meanwhile, for every outcome: in sync, unopened, agreed, adopted or asked without a write, or else a write attempted |
| SyncEngine.Engine.EvaluateMoved | internal/sync/engine.go:427-460 | the branch where the remote moved, whatever the others do meanwhile: unopened changes nothing, the same content is recorded as agreed, unedited or without local hosts it is offered, with hosts on both sides it is stashed and asked about, and otherwise a write is attempted |
| SyncEngine.Engine.PushLocked | internal/sync/engine.go:463-484 | the upload with its single re-pass after a lost race: a write is attempted unless the vault file cannot be read, which changes nothing; undisturbed it comes to what `PushingComesTo` says |
| SyncEngine.Engine.PutAndCommit | internal/sync/engine.go:464-483 | the write itself, for each of its results: stored as the version after the expected one, recorded, and the stash cleared only if the session file was saved too; a fault, a lost race or an unread file leaves session and stash, a dead session neither |
| SyncEngine.Engine.Resolve | internal/sync/engine.go:489-514 | taking the remote side hands over exactly the stashed payload and version, writes nothing and changes no field; keeping the local one attempts the write; undisturbed both, and the call without a stash, come to what `AnswerIff` says |
| SyncEngine.Engine.CommitAdopt | internal/sync/engine.go:518-526 | records the version and payload it is given and clears the stash, and is the machine's step if and only if the server has that payload at that version; signed out it changes nothing |
| SyncEngine.Engine.Pair | internal/sync/engine.go:236-256 | a new session starts without any agreement, stands even if it could not be saved, and keeps the stash |
| SyncEngine.Engine.Attach | internal/sync/engine.go:277-291 | records the version and payload it is given; the device goes on as one of the machine's if and only if the server has that payload at that version |
| SyncEngine.Engine.Failure | internal/sync/engine.go:538-553 | a dead session signs the device out and drops the stash; other faults change nothing |
| SyncEngine.Engine.BetweenCalls | internal/sync/engine.go:401-535 | for the engine's own fields, at any time between calls: true bookkeeping, honest last result, bounded attempts |
| ProjectSafety.NoUnseenOverwrite | internal/sync/projects.go:290-551 | a write or rotation that lands replaces exactly the newest version, which is the one last agreed with (content included), or one whose conflict the user was shown and chose to overwrite, or is re-sealed with its payload unchanged |
| ProjectSafety.BooksAreTrue | internal/sync/projects.go:290-551 | in every run each device's version and fingerprint for the project are true of the server's history |
| ProjectSafety.OutcomesAreHonest | internal/sync/projects.go:215-551 | what a finished call reports is so: which payload is stored at which version and by whom, what conflicts with what; and at most one write per call, two for a removal |
| ProjectSafety.PassKeepsLocalEdits | internal/sync/projects.go:290-354 | a pass shows the local payload, or another only if the local one is a version of the server |
| ProjectSafety.PendingWasShown | internal/sync/projects.go:333-347 | a stashed project conflict is always one that a pass showed |
| ProjectSafety.RunKeepsInv | internal/sync/projects.go:215-551 | true books, true stashes, keys no older than what they would replace, and honest outcomes hold after every run |
| ProjectKeys.KeyChangesExactlyOnRotation | internal/sync/projects.go:487-551 | two versions open with the same key if and only if no rotation lies between them, whoever wrote and however the calls interleaved |
| ProjectKeys.WriteKeepsKey | internal/sync/projects.go:295-324 | an ordinary write that lands is sealed under the key of the version it replaces |
| ProjectKeys.GrantedKeysOpen | internal/sync/projects.go:585-622 | every key ever handed to a waiting member opens the version it was said to open |
| ProjectKeys.GrantIsCurrent | internal/sync/projects.go:595-620 | and at that moment that version is the newest one |
| ProjectPasses.PassOutcome | internal/sync/projects.go:290-354 | what an undisturbed pass reports and leaves, case by case, for every local payload |
| ProjectPasses.RepeatIsNoOp | internal/sync/projects.go:349-354 | after a pass that asks nothing, another over what it showed writes nothing and reports up to date |
| ProjectPasses.UneditedPassPulls | internal/sync/projects.go:326-331 | without local edits a pass ends with the newest version in hand and writes nothing |
| ProjectPasses.RemovalKeepsEditIff | internal/sync/projects.go:511-551 | removing a member always re-seals under the new key; the caller's document survives if and only if the device was up to date or the document equals the server's |
| ProjectPasses.RemovalCanDropEdit | internal/sync/projects.go:519-534 | a concrete run in which the removal succeeds and the caller's edit is on no version |
| ProjectMachine.CallStepsCountDown | internal/sync/projects.go:215-551 | every step of a call brings it nearer its end, whatever other devices do in between |
| ProjectPasses.PassIsFinished | internal/sync/projects.go:239-354 | the pass whose outcomes `PassOutcome` lists is what the engine's `Sync` comes to undisturbed |
| ProjectPasses.RemovalIsFinished | internal/sync/projects.go:511-551 | the removal of which `RemovalKeepsEditIff` speaks is what the engine's `RemoveMember` comes to undisturbed |
| ProjectCalls.PassIff | internal/sync/projects.go:290-354 | an undisturbed pass over one project: up to date, pulled, pushed or asked, each exactly when due by what is edited here and moved there, and what each leaves on the server and in book, key, stash and cache |
| ProjectCalls.PushIff | internal/sync/projects.go:453-485 | an undisturbed upload of an edit: without a key it says so; with one it is stored, as exactly the document sealed under that key, if and only if the book is at the newest version, and otherwise it is a conflict and nothing is changed |
| ProjectCalls.ResolveIff | internal/sync/projects.go:405-448 | the undisturbed answer to a project conflict: nothing without a stash; the stashed document taken and recorded; or, with a key, the local one stored if and only if the stashed version is the newest, and otherwise a conflict with the stash dropped |
| ProjectCalls.RefetchIff | internal/sync/projects.go:369-392 | after a lost race the newest vault is the same document and settled, or under the same key another one and asked about, or under another key and left alone, each exactly then |
| ProjectCalls.RemovalIff | internal/sync/projects.go:493-551 | an undisturbed removal: which document is sealed under the new key, at which version, and what book, key, stash and cache are afterwards |
| ProjectCalls.UnreadIff | internal/sync/projects.go:239-288 | a pass that cannot read the vault: a project that is gone is forgotten, a fault changes nothing, and without a key that opens it only the key is given up |
| ProjectCalls.TroubleKeepsTheBooks | internal/sync/projects.go:302-324 | an upload answered with a fault leaves all the device has of the project, except that an edit to a project that is gone makes it forget it; a pass goes on unless the session died |
| ProjectEngine.Project.Sync | internal/sync/projects.go:239-356 | one project's turn in a pass: its fields end as the machine's device has them; undisturbed, outcome and effects are those of the case table of `ProjectCalls.PassIff`; the session is dead exactly if a request was answered so; a project listed without a key awaits one and keeps its stash and cache |
| ProjectEngine.Project.Weigh | internal/sync/projects.go:290-354 | the two-by-two of local change and remote movement: without an upload the outcome and the record are those of its table, with one they are what the upload came to; undisturbed the call ends where the machine's does |
| ProjectEngine.Project.Refetch | internal/sync/projects.go:369-392 | after a lost race: same content is settled at the version read, other content is stashed as a conflict with both counts, an unreadable vault changes nothing; undisturbed each exactly as `ProjectCalls.RefetchIff` says |
| ProjectEngine.Project.Resolve | internal/sync/projects.go:405-448 | nothing exactly without a stash; taking remote records the stashed version; keeping local with a key in hand makes one upload: stored as the next version, or the stash dropped on a lost race, or a fault that changes nothing; undisturbed each exactly as `ProjectCalls.ResolveIff` says |
| ProjectEngine.Project.PushProject | internal/sync/projects.go:453-485 | with a key in hand it makes one upload: the document stored as the version after the one last agreed with and recorded, or the project gone and forgotten, or a conflict or fault that changes nothing; undisturbed each exactly as `ProjectCalls.PushIff` says |
| ProjectEngine.Project.RemoveMember | internal/sync/projects.go:493-551 | re-keys, with one retry over the vault as it then is: when it reports success the new key, the stored blob and the version are recorded and every recipient with a published key has been handed the new key for it; otherwise nothing is changed; undisturbed it comes to what `ProjectCalls.RemovalIff` says |
| ProjectEngine.WrapForRecipients | internal/sync/projects.go:555-573 | wraps to exactly the recipients with a published key, in order, and notices whether the caller is one of them |
| ProjectEngine.Project.LoadCached | internal/sync/projects.go:688-727 | offline, the cached document is shown and its key kept if and only if the persisted key opens it; otherwise the key is as it was |
| ProjectEngine.Project.Restarted | internal/sync/engine.go:214-232 | after a restart the book and the cache are as they were, and key and stash, which were only in memory, are gone |
| ProjectEngine.Project.Finalize | internal/sync/projects.go:600-619 | whoever it reports was waiting with a published key and was handed the key, which opens the vault at the version named; undisturbed that is all of them if the book is at the newest version, and nobody if it is not |
| ProjectEngine.Project.BetweenCalls | internal/sync/projects.go:194-551 | for the engine's own maps: true books, true stashes, and a key that opens a version no older than the book's |
| ProjectEngine.Engine.SyncProjects | internal/sync/projects.go:198-365 | each refusal exactly when it is due and without effect; the session dies only of the listing or of a listed project's pass, and then nothing is kept on any project; otherwise each listed project had its pass and its outcome stands at its place, unlisted projects are forgotten, and those dropped are exactly the known ones not listed and the listed ones gone |
| ProjectEngine.Engine.DeadLocked | internal/sync/projects.go:744-749 | a dead session leaves no bookkeeping and no open question on any project |
| ProjectEngine.Engine.SetSession | internal/sync/engine.go:245-302 | a new pairing and a sign-out leave no project's bookkeeping |
| ProjectEngine.Engine.FinalizeProjects | internal/sync/projects.go:585-622 | signed out, without an identity or after a key mismatch it grants nothing and makes no request; otherwise everybody it reports was waiting, with a published key, in a project the user administers, and was handed that project's key for a version it opens; in an undisturbed project that is everybody due if there is a key for its newest version, and nobody if not |
| HolderSafety.LiveGrantsHaveOneOwner | internal/remoteaccess/holder.go:281-386 | in every interleaving, a grant is open if and only if it is current or held by an operation that will publish or close it, and never by two |
| HolderSafety.AtMostOneLive | internal/remoteaccess/holder.go:281-386 | with nothing in flight, the open grants are exactly the current one |
| HolderSafety.GrantChangesWithEpoch | internal/remoteaccess/holder.go:307-329 | the current grant changes only with an epoch bump, so a publisher's captured grant is still the current one when it replaces it |
| HolderSafety.RevokeDefeatsToggle | internal/remoteaccess/holder.go:305-326 | once anything settles while a Toggle mints, that Toggle's grant is never published, and is closed by the time the Toggle returns |
| HolderSafety.RevokeIsFinal | internal/remoteaccess/holder.go:366-386 | no grant minted by an operation begun before a revoke's clear is ever current again |
| HolderSafety.OnePublishPerEpoch | internal/remoteaccess/holder.go:307-329 | among the Toggles that captured one epoch at most one publishes |
| HolderSafety.ReplacedMeansClosed | internal/remoteaccess/holder.go:327-343 | a returned Replaced names the grant that was closed and the one that is this Toggle's, on different hosts |
| HolderSafety.GenerationsDiffer | internal/remoteaccess/holder.go:285-292 | no two Toggles ever get the same generation, which is what keeps their audit events apart |
| HolderSafety.NothingBlocks | internal/remoteaccess/holder.go:281-386 | every unfinished operation has a next step of its own that is enabled and brings it nearer its end |
| HolderSafety.ToggleIff | internal/remoteaccess/holder.go:281-344 | a Toggle that nothing disturbs, from any reachable state: off exactly on the host that has access, whose grant is then closed; elsewhere a new open grant on this host is current and the old one closed, or, exactly if none can be opened, everything is as it was |
| HolderSafety.RevokedIsAccurateIff | internal/remoteaccess/holder.go:294-297 | a same-host Toggle answers that its host was revoked; what it withdraws is a grant on that host if and only if nothing settled in between or a grant on that host is current; it withdraws nothing exactly if nothing is current |
| HolderSafety.RevokesSameGrantIff | internal/remoteaccess/holder.go:294-297 | what it withdraws is the very grant it captured if and only if nothing settled in between |
| HolderSafety.RevokedGrantIsWithdrawn | internal/remoteaccess/holder.go:294-297 | in every case the captured grant, which is on that host, is current no more, and closed or being closed |
| HolderSafety.RevokedCanNameTheWrongHost | internal/remoteaccess/holder.go:294-297 | a concrete run in which it withdraws another host's grant |
| HolderSafety.RevokedCanWithdrawNothing | internal/remoteaccess/holder.go:294-297 | a concrete run in which it withdraws nothing |
| HolderSafety.RevokedCanBeRightThoughOvertaken | internal/remoteaccess/holder.go:294-297 | a concrete run in which the epoch has moved and the answer is right all the same |
| HolderMachine.RunKeepsInv | internal/remoteaccess/holder.go:281-386 | ownership, epochs and the meaning of every in-flight operation's state hold after every run |
| GrantHolder.Holder.Toggle | internal/remoteaccess/holder.go:281-344 | revokes exactly if the grant it finds is on this host, and of a replaced grant names the one it found; the outcome is the one of an operation that captured the state it was called in, with a generation one above the last; undisturbed, outcome and grants are those of the case table of `ToggleIff` |
| GrantHolder.Holder.MintAndPublish | internal/remoteaccess/holder.go:299-344 | open outside the lock, then publish or stand aside by the epoch, then close the loser |
| GrantHolder.Holder.Revoke | internal/remoteaccess/holder.go:366-386 | when it returns, every operation begun before it is behind the epoch and none of their grants is current; undisturbed there is no current grant, and the one there was is closed |
| GateSafety.InFlightIsExact | internal/remoteaccess/grant.go:336-384 | the in-flight counter is the number of commands inside the gate and never above the limit |
| GateSafety.AccountsBalance | internal/remoteaccess/grant.go:327-453 | at rest, the ids handed out are the starts and refusals, and the count is the starts and the finishes, rollbacks included |
| GateSafety.EveryIdAccountedFor | internal/remoteaccess/grant.go:327-453 | each id yields one refusal or a start and then a finish, never both, and a finished command one of the two in full |
| GateSafety.CloseIsFinal | internal/remoteaccess/grant.go:167-191 | a command that reaches the gate after closing never passes it |
| GateSafety.GateVerdictIff | internal/remoteaccess/grant.go:336-357 | what becomes of a command at the gate, over every later continuation: refused as revoked exactly if the grant was closed by then, as expired exactly if it was open and past its TTL, as one too many exactly if neither and the limit's number of commands was inside, and let in otherwise; and a refusal is all its audit trail says |
| GateSafety.ExpiryIsFinal | internal/remoteaccess/grant.go:342-345 | a command that has not passed the gate when the TTL runs out never does |
| GateSafety.RunsIff | internal/remoteaccess/grant.go:358-406 | behind the gate a command runs exactly if the grant was not cancelled when it looked again, and is rolled back otherwise, over every continuation |
| GateSafety.NothingStartsAfterClose | internal/remoteaccess/grant.go:167-191 | after the cancel, a command that had not started is dispatched only with a cancelled context |
| GateSafety.LateStartIff | internal/remoteaccess/grant.go:167-191 | once closed, a command can still start with a live context if and only if the cancel has not happened and it is already behind the gate |
| GateSafety.CommandStartsAfterSecondClose | internal/remoteaccess/grant.go:167-191 | a concrete run, for any limit: a command passes the gate, closing begins, and then it is dispatched with a context that is not cancelled |
| GateSafety.EveryStepAdvances | internal/remoteaccess/grant.go:327-406 | a command's steps are finitely many |
| GateMachine.RunKeepsInv | internal/remoteaccess/grant.go:327-453 | counters and audit trails match the commands' states after every run |
| GrantGate.Grant.RunCommand | internal/remoteaccess/grant.go:327-406 | leaves for its id exactly one refusal, or exactly its start and its end with the code returned; after closing always the refusal, on an expired grant always a refusal, and each refusal's reason is so |
| GrantGate.Grant.EnterGate | internal/remoteaccess/grant.go:336-357 | the first lock section, each verdict exactly when due: closed, open but expired, the limit's number of commands inside, or let in |
| GrantGate.Grant.RunAdmitted | internal/remoteaccess/grant.go:358-406 | behind the gate: rolled back and refused as revoked only on a cancelled context, and always on one that is cancelled beforehand; else run |
| GrantGate.Grant.Close | internal/remoteaccess/grant.go:167-191 | the caller that closes returns with the context cancelled; a later caller returns at once and changes nothing |
| GrantGate.LateStart | internal/remoteaccess/grant.go:167-191 | drives the class through that run: the second Close returns within the first, and the command then starts with a live context |
| AuditLog.LogIsWellFormed | internal/remoteaccess/holder.go:473-521 | after any events the entries are numbered without gaps, newest first, exactly the newest 200, and no two share a non-zero key |
| AuditLog.EntryTellsOneCommand | internal/remoteaccess/holder.go:473-521 | every entry keeps time, host and text of the event that opened it and shows the status of the last event with its key; events of different grants never meet |
| AuditLog.NothingIsLost | internal/remoteaccess/holder.go:473-521 | the entry an event went to is in the log at its place unless 200 newer ones have pushed it out |
| AuditLog.RecordTouchesOne | internal/remoteaccess/holder.go:473-521 | recording changes at most one existing entry, one with the event's own key, and only its status |
| AuditLog.Log.Record | internal/remoteaccess/holder.go:473-521 | the log is the fold of all events so far |
| AuditLog.Log.Entries | internal/remoteaccess/holder.go:410-418 | a fresh copy of the entries in order |
| Handshake.TranscriptInjective | internal/remoteaccess/proto.go:99-109 | the bare concatenation of label, zero byte, nonces and socket name determines all four |
| Handshake.LabelsDiffer | internal/remoteaccess/proto.go:91-94 | the two directions' labels differ and contain no zero byte |
| HandshakeSafety.AcceptanceMeansProof | internal/remoteaccess/grant.go:253-322 | in every run against an adversary without the token, a grant accepts only a transcript that exactly one client holding the token proved earlier, for the grant's own nonce and socket name |
| HandshakeSafety.CommandMeansAcceptance | internal/remoteaccess/dial_unix.go:105-142 | a client sends its command only after exactly one acceptance of its own transcript, by a connection of the grant with its token at that socket name |
| HandshakeSafety.CommandsDoNotShareAcceptance | internal/remoteaccess/dial_unix.go:105-142 | one exchange never carries two commands |
| HandshakeSafety.RogueSocketSeesNoCommand | internal/remoteaccess/proto.go:77-90 | at a socket name that no grant with the client's token serves, no command is ever sent |
| HandshakeSafety.ProofHasAuthor | internal/remoteaccess/proto.go:96-109 | a client proof anyone can present was made by a client for that exchange: no reflection of the server's, no other transcript |
| HandshakeSafety.HonestExchangeSucceeds | internal/remoteaccess/grant.go:253-279 | undisturbed, client and grant complete the exchange |
| HandshakeSafety.RunKeepsInv | internal/remoteaccess/proto.go:59-109 | every MAC on the wire has an honest author, events are in causal order, and no session acts twice, after every run |
| Dialling.Authenticate | internal/remoteaccess/dial_unix.go:105-142 | succeeds exactly on a 32-byte challenge answered by the grant's own proof; sends at most its one proof, over the nonce it was given |
| Dialling.DialGrant | internal/remoteaccess/dial_unix.go:42-72 | chooses the first socket that proves it holds the token, and no other socket gets the command |
| Dialling.Handle | internal/remoteaccess/grant.go:253-281 | accepts exactly a well-formed correct proof; and all it says is the challenge, and then the proof of its own to such a one, a refusal to a wrong one, and nothing to anything else |
| CommandPump.RunCommand | internal/remoteaccess/dial_unix.go:145-210 | what the caller's writers get, and the result, for every stream of frames, as the case table of `PumpIff` has them |
| CommandPump.PumpIff | internal/remoteaccess/dial_unix.go:145-210 | the result is decided by the first frame that is no output, each exactly when due: exited, ended with an error, refused, garbled, hung up or cancelled, or a write failed before; and the bytes of the output before it were written, up to the write that failed |
| CommandPump.OutputArrives | internal/remoteaccess/dial_unix.go:165-197 | output chunked and interleaved in any way, then the end frame, arrives whole and in order with its code |
| CommandPump.ExitMeansComplete | internal/remoteaccess/dial_unix.go:165-197 | an exit code is reported only if the end frame was reached over nothing but output, all of it written |
| ExecSafety.ExitMeansComplete | internal/sessd/exec.go:114-175 | for any number of commands on one stream: an Exec that returns a code has had its writers given exactly its own command's output, and the code is its own; a writer then holds that output if and only if it never took less than it was given |
| ExecSafety.OnlyOwnOutput | internal/sessd/exec.go:56-73 | at any time its writers have been given a prefix of its own command's output, never another's |
| ExecSafety.SilentOnceReturned | internal/sessd/exec.go:56-90 | once sealed nothing more reaches the writers, the result stands, and an id once out of the registry stays out |
| ExecSafety.EndIsFinal | internal/sshx/exec.go:133-199 | once the host has reported a command's end, nothing of it is put on the wire any more and nothing of it follows the end there, although copiers of an abandoned command run on |
| ExecSafety.CopierOutlivesCommand | internal/sshx/exec.go:133-199 | a concrete run in which one does write after the end, and it is swallowed |
| ExecSafety.AnswersArrive | internal/sessd/exec.go:75-84 | when the wire is empty, a call still waiting has its command's end exactly if the command has ended |
| ExecSafety.LiveCallFinishes | internal/sessd/exec.go:154-175 | an Exec comes back cancelled only if its context was, and without its session only if that is gone; one that nobody cancels on a session that lives comes back with its command's status; and only a cancelled call tells the host to give up |
| ExecMachine.RunKeepsInv | internal/sessd/exec.go:45-315 | call, command and the frames between them hang together after every interleaving |
| ExecMux.Session.Exec | internal/sessd/exec.go:114-175 | waits until a channel is ready; on any exit the call is sealed and unregistered; on a code the writers were given the whole output, hold it unless one took less, and the code is its own; on any other there is a reason, a session gone or a cancelled call of which the host has been told, so a live, uncancelled call brings its status |
| ExecMux.Session.ReadOne | internal/sessd/client.go:517-537 | one frame is taken, looked up and delivered before the next |
| ExecMux.Session.WriteOutput | internal/sessd/exec.go:297-315 | ships a prefix of its bytes, all of them unless sending failed, in non-empty chunks within the limit |
| ExecMux.Session.CutoffWrite | internal/sshx/exec.go:181-199 | the cut-off writer: cut, it swallows everything and reports success; otherwise it ships what it is given, and a cut waits for it |
| ExecMux.Session.Serve | internal/sessd/exec.go:236-281 | a command ends after its copiers, or abandoned with both writers cut; then its end frame is the newest on the wire, with code 0 on a failure |
| Scrollback.Ring.Write | internal/sshx/ring.go:27-56 | the ring holds the last capacity bytes of everything written, through wrap-around, exact fill and oversized writes |
| Scrollback.Ring.Snapshot | internal/sshx/ring.go:59-71 | returns a fresh copy of exactly those bytes in order |
| Scrollback.Advanced | internal/sshx/ring.go:36-56 | the index arithmetic of a wrapped write advances the window over the history by exactly what was written |
| Scrollback.LastNOfLastN | internal/sshx/ring.go:27-56 | keeping the last n bytes can be done write by write |
| Handover.Tee.Write | internal/sshx/ring.go:90-100 | appends to the history and to the live terminal, if any, and to no other; a terminal that fails is detached |
| Handover.Tee.GoLive | internal/sshx/ring.go:106-114 | the terminal gets exactly the last capacity bytes and is live from there, or keeps a prefix of them and is not made live; every terminal's stretch stays intact if and only if the replay got through or went to a terminal that was not live |
| Handover.Tee.UnsetLive | internal/sshx/ring.go:118-124 | detaches only the terminal it names; a stale call leaves a newer one live |
| Handover.ReplayIsStretch | internal/sshx/ring.go:106-114 | whatever part of a replay arrived is a stretch of the history starting at most capacity bytes back |
| Handover.StretchGrows | internal/sshx/ring.go:90-100 | and live bytes extend that stretch without a gap or a repeat |
| ShellQuote.ArgvRoundTrips | cmd/wharf/remote.go:459-500 | for every argv, the shell's tokenizer reads the joined line back as that argv, character for character |
| ShellQuote.RemoteCommandRoundTrips | cmd/wharf/remote.go:445-455 | both levels: the outer shell gets exec, the login shell, -lc and the script as one word, and the script tokenizes to the argv |
| ShellQuote.RawScriptArrives | cmd/wharf/remote.go:445-455 | with --sh the script arrives verbatim |
| ShellQuote.RemoteCommandIsInjective | cmd/wharf/remote.go:445-500 | different argument vectors never become the same command string |
| ShellQuote.ScanQuoted | cmd/wharf/remote.go:481-489 | a quoted argument is read as exactly its characters wherever it stands in a line |
| ShellQuote.JoinArgv | cmd/wharf/remote.go:459-465 | the loop's line tokenizes to the argv |
| RemoteArgs.ParseRemoteArgs | cmd/wharf/remote.go:163-242 | the loop's result for every argument list is the one `ParseIff` describes |
| RemoteArgs.ParseIff | cmd/wharf/remote.go:163-242 | a parse comes to a result if and only if, behind the token, the words are well-formed options followed by words that begin with none, and those decide it: the separator gives the command, anything else the one error that fits it, missing separator and bare word told apart |
| RemoteArgs.LastTimeoutCounts | cmd/wharf/remote.go:197-232 | any --sh makes the command raw, and of several timeouts the last one counts |
| RemoteArgs.CommandFollowsSeparator | cmd/wharf/remote.go:163-242 | a parse that succeeds found a separator, and the command is everything behind it untouched |
| RemoteArgs.PrintedLineParsesIff | cmd/wharf/remote.go:163-242 | the printed line parses back to its token and command if and only if the token is not the separator and not spelled like an option |
| RemoteArgs.AttachedTokenParses | cmd/wharf/remote.go:163-196 | with the token attached to the flag the line parses back to token and command, whatever the token |
| RemoteArgs.MintedTokensAreSafe | internal/remoteaccess/grant.go:70-91 | which holds of every token a grant mints |
| Framing.FramesRoundTrip | internal/remoteaccess/proto.go:151-210 | frames within the limit, concatenated, are read back as themselves and consume exactly their bytes |
| Framing.TruncationLosesOnlyTheEnd | internal/remoteaccess/proto.go:190-210 | a stream cut at any byte yields exactly the whole frames before the cut, and says whether it was cut inside one |
| Framing.ReadIsFaithful | internal/remoteaccess/proto.go:190-210 | whatever the bytes, the frames read re-encode to a prefix of them, the whole exactly on a clean close |
| Framing.Stream.ReadFrameLimit | internal/remoteaccess/proto.go:190-210 | reads one frame off the stream; a declared length over the limit, and nothing else, is refused as too long before any payload byte is read, and a clean end is exactly no byte at all |
| Framing.Stream.WriteFrame | internal/sessd/proto.go:244-260 | writes the frame's encoding, or refuses an oversized payload and writes nothing |
| FrameSizes.AcceptedRequestsFit | cmd/wharf/remote.go:404-423 | a request the client's check accepts fits one frame on both hops, base64 and JSON included |
| FrameSizes.PromisedStdinIsAccepted | cmd/wharf/remote.go:62-88 | the promised amount of stdin is accepted with any command within the reserve |
| FrameSizes.PromiseIsTight | cmd/wharf/remote.go:62-88 | one byte more, with a command that fills the reserve, is not |
| FrameSizes.ChunksFit | internal/remoteaccess/proto.go:111-114 | an output chunk fits one frame on both hops |
| FrameSizes.StreamWrite | internal/remoteaccess/proto.go:242-255 | output is split into non-empty chunks within the limit that concatenate to it |
| Merge.MergePayloads | internal/store/merge.go:46-107 | fails exactly on an unreadable side; otherwise behind the account's hosts and keys come exactly the local ones with free names, as they are, as the two lemmas below say; added and skipped make up the local list |
| Merge.KeysAreCarriedIff | internal/store/merge.go:62-79 | a local key is carried if and only if neither an account key nor an earlier local key has its normalized name; the carried ones follow the account's in local order, each unchanged but for an id that was empty or taken |
| Merge.HostsAreCarriedIff | internal/store/merge.go:81-100 | the same of hosts, each unchanged but for its id, as above, and its rewritten binding |
| Merge.MergeKeepsTheAccount | internal/store/merge.go:46-107 | the account's hosts and keys stay an untouched prefix, settings and identity are its own, and names and ids stay unique if they were |
| Merge.RebindLeads | internal/store/merge.go:62-79 | every local key's id leads to a key of the merged list, of the same normalized name for the last key with that id |
| Merge.BindingsFollow | internal/store/merge.go:89-97 | a carried host's binding is empty or names a merged key; with unique ids the key of the same name; and one that no local key has, but a merged key does, is kept |
| Merge.CarriedHostsAreLocal | internal/store/merge.go:81-100 | a host beyond the account's is a local one, rebound and perhaps re-identified, otherwise unchanged |
| Merge.MergeIsIdempotent | internal/store/merge.go:46-107 | merging the same local document again changes nothing |
| Store.ImportIsIdempotent | internal/store/store.go:240-290 | importing a list with distinct names twice adds and updates nothing the second time |
| Store.ImportIsConservative | internal/store/store.go:240-290 | every stored host keeps its place, id, last use and name; manual ones are untouched; secrets and keys are never cleared, and without secrets never changed |
| Store.ImportTakesOver | internal/store/store.go:240-290 | what an import with distinct names makes of each of its hosts: a new name is stored with all its fields; a manual host stays; any other takes name, user, address, port, tags, key path and source, keeps id and last use, and its key and secrets where the import has none or may not change them |
| Store.CountersTell | internal/store/store.go:240-290 | and the counters are the number of hosts added and of hosts that changed |
| Store.ImportKeepsNamesUnique | internal/store/store.go:240-290 | unique names stay unique, and the three counters make up the list |
| Store.Store.UpsertImported | internal/store/store.go:240-290 | the loop's hosts and counters are those of importing one host after another; with distinct names every host is as `ImportTakesOver` says and the counters as `CountersTell`; hosts the import does not name stay as they are |
| Store.Store.AddHost | internal/store/store.go:426-446 | adds exactly an acceptable host, with defaults filled in; otherwise changes nothing and names a rule the host breaks |
| Store.Store.UpdateHost | internal/store/store.go:450-465 | replaces exactly the host with that id, if the result is acceptable; otherwise changes nothing and names a rule broken |
| Store.Store.RemoveKey | internal/store/store.go:332-344 | removes the key and exactly the bindings to it |
| Store.RemoveKeyLeavesNoDangling | internal/store/store.go:332-344 | so no binding dangles if none did |
| Hotkeys.CutAnywhere | internal/sessd/attach.go:173-223 | bytes forwarded and hotkeys fired do not depend on where the input is cut into reads |
| Hotkeys.FirstWatched | internal/sessd/attach.go:225-256 | what the scan's first watched byte means for the rest of the input |
| Hotkeys.CollisionStillDetaches | internal/sessd/attach.go:42-55 | a hotkey equal to the detach byte is disabled, and detaching still works |
| Hotkeys.InputAsAsked | internal/sshx/attach.go:42-55 | in the terms of the options asked for: the detach byte, or 0x1c if none was given, ends the input; before it every byte reaches the remote but the toggling one, which counts exactly if it is not zero, has a callback and does not detach |
| Hotkeys.Attachment.Dispatch | internal/sshx/attach.go:225-249 | sends the chunk up to the detach byte without its hotkeys, fires once per hotkey, goes on exactly without a detach; if a write fails, all before that run was handled, part of the run may have got through, and no later hotkey fires |
| Hotkeys.Attachment.Forward | internal/sessd/attach.go:173-198 | for every way the input is split into reads: the bytes before the first detach byte without hotkeys, in order; on a failed write the same up to some run of the whole input |
| Hotkeys.FailedIsPrefix | internal/sshx/attach.go:225-249 | and what was sent then is a prefix of what was due, and no hotkey fired that was not pressed |
| ByteReader.VarintRoundTrip | internal/termius/clone.go:52-69 | every 64-bit value is read back from its canonical encoding, consuming exactly it |
| ByteReader.VarintIff | internal/termius/clone.go:52-69 | what any bytes are read as: overflow exactly after ten digits that go on, the end of input exactly if it comes earlier, and otherwise the number the digits make, as far as 64 bits hold it |
| ByteReader.ZigzagInverse | internal/termius/clone.go:72-78 | the signed reading inverts zigzag |
| ByteReader.Reader.Varint | internal/termius/clone.go:52-69 | the loop comes to what `VarintIff` says, and only moves forward |
| CloneRoundTrip.RecordRoundTrips | internal/termius/clone.go:137-304 | every tree value with array lengths below 2^63, however it was padded, version-tagged, sparse or dense, is read back from a record body as the value and the shared maps it means, at the right cursor; or, if a key of it cannot be printed, decoding never ends |
| CloneRoundTrip.WrittenStands | internal/termius/clone.go:147-304 | the bytes of a value, at any offset, are its tags and numbers one after the other, up to where they end |
| CloneRoundTrip.WrittenReads | internal/termius/clone.go:147-304 | and those are read as the value and maps that are meant, ending there, with any table of maps already made |
| CloneRoundTrip.DecodesIff | internal/termius/clone.go:147-304 | a value is decoded, with these maps and up to there, if and only if there is a way of writing it that stands there, ends there and means that: nothing is decoded that cannot be written |
| CloneRoundTrip.RecordDecodesIff | internal/termius/clone.go:137-304 | and so for record bodies |
| CloneReader.Decoder.Value | internal/termius/clone.go:147-304 | keeps the cursor in bounds and moving forward, fills the maps as it goes, and comes to what the grammar says: a value, an error, the panic that the conversion of lengths leads to, or no end |
| CloneReader.DecodeRecord | internal/termius/clone.go:137-146 | returns a value and its maps if and only if that is what is written behind the prefix; otherwise fails, panics or never ends as the grammar says |
| ClonePanics.DecodePanicsIff | internal/termius/clone.go:80-304 | for every input: decoding panics if and only if its walk, which stops at an error or at a key that cannot be printed, gets to a reference or an array length of 2^63 or more, or a run or double whose end wraps |
| ClonePanics.DecodeIsEndlessIff | internal/termius/clone.go:147-304 | for every input: decoding never ends if and only if that walk gets to a field whose key, with the maps as filled at that moment, leads to a map that contains itself |
| CloneValues.PrintsIff | internal/termius/clone.go:183 | a value can be printed, following maps to whatever depth, if and only if it leads to no map that contains itself |
| CloneValues.DepthDoesNotMatter | internal/termius/clone.go:183 | and how deep makes no difference to its text |
| CloneValues.InsertUpdates | internal/termius/clone.go:183 | storing under a key that is there replaces its value, and no other |
| CloneValues.InsertKeepsOrder | internal/termius/clone.go:183 | and keeps the keys in the order they are printed in |
| CloneValues.KeysAreWhatTheySay | internal/termius/clone.go:183 | a text is printed as itself, a number as the decimal digits that make it |
| CloneEndless.SelfKeyedNeverEnds | internal/termius/clone.go:162-184 | whatever the name, the value behind and the rest: an object that has itself as a value and then as a key is never decoded to an end |
| CloneEndless.SmallSelfKeyedNeverEnds | internal/termius/clone.go:162-184 | twelve bytes of the kind |
| CloneEndless.OverwrittenIsMade | internal/termius/clone.go:162-184 | with the value overwritten before the key is printed, the same object is made |
| CloneEndless.MakingKeeps | internal/termius/clone.go:147-304 | making a value leaves the maps made before it as they are |
| ClonePanics.HugeReferencePanics | internal/termius/clone.go:147-304 | every record that is a reference numbered 2^63 or beyond panics with an index out of range |
| ClonePanics.HugeArrayPanics | internal/termius/clone.go:147-304 | every dense array that declares such a length panics with a capacity out of range |
| ClonePanics.WrappingStringPanics | internal/termius/clone.go:80-87 | every string whose declared length makes the guard's sum wrap panics with a slice out of range |
| ClonePanics.SmallReferencePanics | internal/termius/clone.go:147-304 | twelve bytes that panic so |
| ClonePanics.SmallArrayPanics | internal/termius/clone.go:147-304 | twelve bytes that panic so |
| ClonePanics.SmallStringPanics | internal/termius/clone.go:80-87 | eleven bytes that panic so |
| ClonePanics.ShortVarintsNeverPanic | internal/termius/clone.go:52-87 | an input without eight bytes of 0x80 or more in a row never panics, though it may still never end |
| CloneEndless.NoReferenceAlwaysEnds | internal/termius/clone.go:147-304 | an input without the byte 0x5e is decoded to an end |
| CloneEndless.PlainKeysAlwaysEnd | internal/termius/clone.go:147-304 | and so is one whose keys are no maps and hold none |
| CloneEndless.GuardedInputIsDecoded | internal/termius/clone.go:147-304 | with both guards the outcome is a value or one of the five errors that are returned |
| WriteBatch.DecodeBatch | internal/termius/idb.go:121-159 | the walk yields exactly the puts among the whole entries the batch holds, or panics exactly as the lemma below says |
| WriteBatch.WholeEntries | internal/termius/idb.go:121-159 | whatever the bytes: what is gathered are the puts among the whole entries that stand behind the header one after the other, a put being any entry whose first byte is not zero |
| WriteBatch.BatchPanicsIff | internal/termius/idb.go:121-159 | for every input: the walk panics if and only if it gets to an entry whose key or value declares a length whose end wraps |
| WriteBatch.WrappingKeyPanics | internal/termius/idb.go:121-159 | every key length just below 2^63 does it |
| WriteBatch.BatchRoundTrips | internal/termius/idb.go:121-159 | decoding inverts writing, minus deletions, and does not panic |
| WriteBatch.TornBatchYieldsPrefix | internal/termius/idb.go:121-159 | any bytes cut anywhere: if the whole does not panic neither does the cut, and the cut decodes to a prefix of what the whole decodes to |
| WriteBatch.TornBatchKeepsWholeEntries | internal/termius/idb.go:121-159 | a batch torn inside an entry yields exactly the puts before it, and does not panic |

## Left out

- SyncSafety.NoSilentDiscard: hosts only are counted, as the code does, so a local document with keys but no hosts can be replaced.
- HandshakeSafety.CommandMeansAcceptance: speaks of the transcript, not of the frames after it; a relay bound at the grant's own name can still alter what follows, as the source says of itself.
- Handover.Tee.GoLive: models the strict replay of the session host; the in-process attach ignores a failed replay write.
- ProjectEngine.Project.RemoveMember: the server's list of members is not modelled, so nothing is said of the one removed beyond not being a recipient.
- ProjectEngine.Engine.SyncProjects: an outcome stands for a project's view; names, roles and member lists in it are not modelled, and with a project listed twice only the last of its outcomes is tied to its fields.
- CloneReader.Decoder.Value: the texts of doubles, of UTF-16 and of dates are parameters; doubles stay eight bytes, a date the bytes it was made from; memory is unbounded, and so is the stack except that a print without an end counts as none.
- GrantGate.Grant.Close: the listener, the socket file and the end of the accept loop are not modelled.
- Dialling.Handle: deadlines, the slot for unauthenticated connections and the request frame are not modelled.
- ExecMux.Session.Exec: output is what the host put on the wire; what a copier lost because a frame could not be sent is not part of it; a call that waits is taken to see its command end, or itself cancelled, or the session gone.
- CommandPump.RunCommand: writing the request, and nil writers, are not modelled.
- Store.Store.AddHost: lower-casing and trimming are ASCII; nil and empty tag lists are one.
- `Engine.ChangePassword`, which uploads without an expected version, and `Engine.Close`; token rotation and the encryption of the session file.
- A project's session-file save that fails and is followed by a restart; the blob cache's own write errors.
- The stash after a later agreeing pass: the code keeps it, and so does the model; only the compare-and-swap is claimed to protect the server.
- `Host.dial`, the connection pool, prompts, forwards, probes, proxies and `known_hosts`.
- `Host.attach`, `detach` and `drop` beyond the handover of output.
- The grant's slots for unauthenticated connections and all deadlines; expiry is a flag that may become true at any time.
- Shell grammar beyond tokenizing: a first word with `=` in it and reserved words.
- JSON as text, except for sizes; SHA-256, MACs, sealing and key wrapping; sockets, files and clocks.
- LevelDB tables, journal blocks and IndexedDB key prefixes around the write batches.
- The UI.
