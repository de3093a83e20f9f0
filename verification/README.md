# Blindjoin's round engine, verified

Blindjoin coordinates CoinJoin rounds: participants register coins, redeem
blind-signed tokens for outputs of one denomination, sign one common
transaction and have it broadcast. This project models the coordinator's round
engine, its transaction builder, its ban list and the client's acceptance test,
and proves what they promise each other.

The engine is modelled as a protocol. Its state is what the process shares (the
round behind its lock, the ban list, the consecutive-blame counter, the pause,
the monitor's variables and the tasks in flight) together with a history of what
happened. Every critical section is one atomic step; everything the code does
not control is part of the step's label: the interleaving, the requests, the
node's answers, fresh round ids, the order in which hash maps are iterated, and
the passing of time. The results hold after every run, from every process start.

| file | holds |
|---|---|
| `Base`, `Config`, `Transactions`, `World` | values, the configuration and its validation, transactions, and the arbitrary functions that stand for libraries |
| `Outpoints`, `Ownership` | the text form of outpoints, character by character; ownership dispatch and the value gate |
| `Fees`, `InputOrder`, `CoinJoinTx` | fee estimate, canonical order, the transaction builder |
| `ClientCheck` | the client's checks, their soundness and their completeness |
| `BanStore`, `BanJournal` | the ban list in memory and in its append-only file, crashes, lost and torn lines |
| `Rounds`, `Blame` | each operation as a function on values: the specification |
| `RoundStates`, `SigningEngine`, `BlameEngine`, `Coordinators` | the same operations as methods that change objects in place, each proved to compute its specification and, put together, to be one step of the protocol |
| `Canonical`, `Assembly`, `RoundInvariant`, `SigningRound` | one canonical transaction, what assembly does to it, the invariant of the round |
| `Protocol`, `Changes`, `Steps` | the protocol, the six kinds of change, and that every step is one of them |
| `Lifecycle`, `OneTransaction`, `Attribution`, `Reckoning`, `Runs`, `Results` | invariants of the history and the main results over runs |
| `Progress`, `Restarting`, `Deadlines`, `Starts`, `Timing` | no round is ever stuck and none stays unstarted; every round ends in time and starts in time; the watchdog never preempts |
| `Provenance`, `Vetting` | where every coin, token, signature and reply of a round comes from, and the checks behind each |
| `FairBuilds`, `Composition` | every transaction is an honest build for the round's own people; client and coordinator compose |
| `HonestRounds`, `Permissive` | an honest round completes, and a world in which it does |
| `Counting`, `Restarts` | the blame counter with and without a backoff; bans through restarts |
| `RequestBans`, `StaleRequests` | when exactly the coin of a request under way is banned; a banned coin that is registered |
| `Exhibits` | a round over the fee-rate ceiling, and one the watchdog takes from a finalize that waited too long |

## Assumptions

Blind signatures (RFC 9474), session tokens, witness verification, address
parsing, hashes, blind signing and the fee-rate ceiling of transaction
extraction are arbitrary total functions: nothing is assumed of them, in
particular no hash is injective. Witness verification reads the unsigned
transaction, the previous outputs, the index and the script type. Round ids come
from a supply that never repeats. Amounts and times are natural numbers. The
configuration is one that startup validation accepts.

## Where code and comments differ

- The comments at coordinator/src/config.rs:412-414 and 470-478 give the worst
  finalize as 10 + 10 * participants seconds. The code makes two calls before
  re-validation, so the worst case is 20 + 10 * participants; the proofs use
  that, and the watchdog still leaves room.
- coordinator/src/run.rs:91-92 says malformed lines of the ban file are skipped.
  A line that cannot be read at all makes the load fail and the list start
  empty; `BanStore` follows the code.
- The comment at coordinator/src/round/blame.rs:111-116 promises that an appended
  entry survives. It does exactly when its line reaches the disk whole and
  nothing unended but blanks stands before it: an append that is cut off leaves
  a line without its end, and the next append is then lost with it.

## Model

| member | source | states |
|---|---|---|
| Results.OneTransactionPerRound | coordinator/src/round/signing.rs:101-119 | In every run, all transactions shown by `get_tx`, verified against when a signature was recorded, or assembled under one round id are equal, whatever order each call iterated the input map in. |
| Results.AssembledAsVerified | coordinator/src/round/signing.rs:356-441 | The assembled transaction stripped of scripts and witnesses is the round's one transaction; each of its witnesses decodes from a signature recorded in that round and verified as that witness at that very input; and an input that spends a script hash with a signature and a 33-byte key carries the push of that key's redeem script, every other an empty script. |
| Results.InFlightWasAssembled | coordinator/src/round/signing.rs:144-160 | A round in Broadcast has an assembly on record. |
| Results.OnlyTheAssembledIsSent | coordinator/src/round/signing.rs:464-498 | Whatever transaction a finalize task holds was assembled in the round the task belongs to and is that round's transaction. |
| Provenance.EveryCoinWasProven | coordinator/src/bitcoin/utxo.rs:73-207 | Every registered coin of every run is worth the denomination plus the estimate at the minimum, and a witness carried by the proof sent with it verified for its script, its outpoint and the round of its snapshot, under the type the chain gives its script. |
| Provenance.EveryTokenWasSigned | coordinator/src/round/output_reg.rs:54-120 | For every token redeemed in a reachable round, an output request posted in that round carries a signature and randomizer that verify for it under the key the round publishes, and an address its message is bound to. |
| Provenance.EverySignatureWasVerified | coordinator/src/round/signing.rs:101-133 | Every signature recorded in a run decodes to a witness that verified against the round's transaction at the input of its own outpoint, whose previous output is the registered coin, under the type found at registration. |
| Provenance.IssuedTokenDecides | coordinator/src/round/signing.rs:64-70 | In every reachable Signing state a participant who has not signed is refused for the session if and only if the token sent is not the one handed out at its registration, or not of 32 bytes, whatever spelling of the outpoint is sent. |
| Provenance.RunIsSourced | coordinator/src/api/handlers.rs:238-307 | In every reachable state the round's inputs, outputs and tokens are exactly those of its registrations and accepted outputs on record, and every one of these events is sound under the round's own key. |
| Vetting.EveryCoinWasVetted | coordinator/src/api/handlers.rs:80-307 | Behind every registration of a run lie, in this order: a request that came while its round took inputs, a ban check that found the coin not banned, a snapshot that did not hold it of the round its proof was made for, the node's report of it unspent with just this value and script, and the commit. |
| Vetting.SnapshotIsExact | coordinator/src/api/handlers.rs:159-170 | The snapshot of a sound round holds an outpoint exactly if its canonical key is registered. |
| Results.RoundHasItsShape | coordinator/src/round/state.rs:193-210 | At every lock release: never Blame; sensitive half present exactly outside Idle; count = number of inputs, at most the maximum; fewer outputs than inputs in OutputReg; outputs = tokens = inputs, at least the minimum, in Signing and Broadcast; signature keys inside the input keys, none before Signing, all in Broadcast. |
| Results.OutputsAreDistinct | coordinator/src/round/output_reg.rs:79-118 | In every reachable round the registered output scripts are pairwise distinct and the redeemed set is exactly the token messages of the registered outputs, with no assumption on the hash. |
| Results.OneInstallationOneEnding | coordinator/src/run.rs:178-230 | A round id is installed at most once and ended at most once; the installation is its first event, the ending its last, and an ended id is never the current one. |
| Results.EndedRoundsAreInert | coordinator/src/run.rs:28-40 | Once a round has ended, its timers, watchdog and finalize tasks change nothing but their own disappearance. |
| Results.AccountsChangeOnlyAtEndings | coordinator/src/round/signing.rs:507-548 | Bans, counter and pause change only in the critical section that ends a round, which also takes a fresh round id. |
| Results.RankOnlyFalls | coordinator/src/run.rs:231-343 | Under one id the phase rank never rises; a changed id is fresh and idle; a timer or watchdog that changes a round without ending it strictly lowers its rank. |
| Results.LiveTimersBite | coordinator/src/run.rs:231-343 | A timer that finds its round and phase always acts: input registration with a quorum moves on, every other case ends the round in a fresh idle one. |
| Results.EndingsBanTheBlameworthy | coordinator/src/round/blame.rs:236-264 | Every ending bans exactly those to blame: at a signing deadline the registered without a recorded signature; after a failed broadcast the registered the node was asked about and reported spent before the search stopped; otherwise nobody. |
| Results.EveryBanIsDeserved | coordinator/src/round/signing.rs:233-256 | Every entry of the ban list was loaded at the start or was written by an ending for somebody to blame, with that ending's time and the configured duration. |
| Results.BansLast | coordinator/src/round/blame.rs:31-48 | Whoever an ending banned is answered as banned for the whole configured duration. |
| Restarts.BansOutliveProcesses | coordinator/src/run.rs:91-116 | Whoever an ending bans, if its line lands in a readable file and nothing unended but blanks stands before it, is answered as banned by every later process over the file at every moment within the duration, through any number of restarts and compactions and whatever becomes of every other line, earlier or later. |
| Restarts.LoadedBansLast | coordinator/src/round/blame.rs:31-37 | A ban loaded at a start is never shortened by what the process does. |
| Results.SameRoundMeansUnbanned | coordinator/src/api/handlers.rs:84-127 | A registration whose first phase check and commit fell in the same round was not banned at the moment of the commit. |
| RequestBans.RequestIsBannedExactly | coordinator/src/api/handlers.rs:84-127 | In every reachable state, the coin of a request that is past its ban check is banned if and only if the ending of the round the request began in, or a later one, banned its hash less than the ban duration ago. |
| RequestBans.RegistrationsAreExact | coordinator/src/api/handlers.rs:241-252 | In every run a coin is banned at the moment of its registration exactly under that condition. |
| RequestBans.SameRoundIsTheSpecialCase | coordinator/src/api/handlers.rs:241-252 | In a history with one ending per round, placed last, the condition never holds for a registration in the round its request began in. |
| StaleRequests.SomeRunRegistersABannedCoin | coordinator/src/api/handlers.rs:241-252 | The condition is met: under every valid configuration with a ban duration some run registers a coin that is banned at that moment, by a request that began in an earlier round. |
| Results.ThreeFailuresPause | coordinator/src/run.rs:301-325 | With a backoff configured, the third counted failure with nothing clearing in between arms the pause if none before it did. |
| Results.CounterStaysWithinCap | coordinator/src/round/signing.rs:257-271 | With a backoff configured the counter is the streak of counted failures since the last success, attributed failure or pause, and never exceeds 2. |
| Counting.RunKeepsCounter | coordinator/src/round/signing.rs:257-271 | In every run the counter is a function of the history alone, with or without a backoff. |
| Counting.CapIsPassedExactly | coordinator/src/round/signing.rs:257-271 | The counter of a run exceeds 2 if and only if no backoff is configured and an unattributed broadcast failure met the counter at 2 with no success, attributed failure or signing deadline since. |
| Counting.EveryCountIsReached | coordinator/src/round/signing.rs:257-271 | Under every valid configuration without a backoff, every number is the counter of some run. |
| Results.NoRoundStartsPaused | coordinator/src/run.rs:178-230 | No round leaves Idle before the pause in force is over, although the monitor reads the pause before key generation and never again. |
| Results.PausesHold | coordinator/src/run.rs:178-230 | Every installation after an ending that armed a pause comes at least the backoff after that ending. |
| Results.StuckOnlyOverCeiling | coordinator/src/round/signing.rs:130-162 | A reachable round in Signing with every signature recorded has a funded, fully signed transaction that exceeds the fee-rate ceiling: nothing else can keep it there. |
| Exhibits.SomeRoundSitsOverCeiling | coordinator/src/round/signing.rs:130-162 | That is met: under every valid configuration, where the fee-rate ceiling refuses every transaction, some run brings a round of each allowed size to Signing with every signature recorded. |
| Results.LastSignatureTakesOff | coordinator/src/round/signing.rs:135-162 | In every reachable Signing state a valid signature from the last participant missing moves the round to Broadcast, with every signature recorded, unless the finished transaction is over the fee-rate ceiling. |
| HonestRounds.HonestRoundCompletes | coordinator/src/api/handlers.rs:238-307 | From every reachable idle state, for every number of participants from the minimum to the maximum, players with valid coins, tokens and signatures take the round through every phase to a successful broadcast, recorded with all of them as participants and signers. |
| Permissive.CastIsGood | coordinator/src/api/handlers.rs:80-170 | The hypotheses on the players can be met under every valid configuration and for every allowed number of them. |
| Counting.SomeRoundCompletes | coordinator/src/round/signing.rs:500-512 | Under every valid configuration and for every allowed number of participants some run reaches a successful broadcast. |
| Progress.EveryRoundCanEnd | coordinator/src/run.rs:169-345 | From every reachable state with a round under way, at most 24 steps of the monitor and its timers alone end that round, whatever clients and node fail to do. |
| Deadlines.EveryRoundEndsInTime | coordinator/src/run.rs:231-343 | With timers that fire when due and a monitor that polls within p seconds, every installed round has ended, or is still under way, within its three phase timeouts plus the watchdog delay plus 4 p. |
| Deadlines.EveryPhaseEndsInTime | coordinator/src/run.rs:231-343 | In such a run no phase lasts longer than its own configured timeout, or the watchdog delay, plus p. |
| Deadlines.PacedRunIsRun | coordinator/src/run.rs:169-345 | Dropping the clocks of a paced run gives a run of the protocol. |
| Starts.EveryRoundStartsInTime | coordinator/src/run.rs:169-230 | With a monitor that rests at most p seconds between its steps and key generation that succeeds within g, no round is idle later than 5 p + 2 g after the last ending or the end of the pause, whichever is later. |
| Starts.WakingRunIsRun | coordinator/src/run.rs:169-230 | Dropping the clocks of such a run gives a run of the protocol. |
| Restarting.EveryIdleRoundCanStart | coordinator/src/run.rs:169-230 | From every reachable idle state at most eight steps of the monitor, the clock and the key generator start that very round: the monitor never takes an idle round for handled before it is started. |
| Restarting.RunIsRemembered | coordinator/src/run.rs:189-230 | An idle round marked as handled is being started at that very moment. |
| Progress.RunIsCovered | coordinator/src/run.rs:159-166 | If the monitor believes the current phase of the current round armed, its timer exists. |
| Composition.ShownTransactionIsAccepted | client/src/round/sign.rs:37-61 | A client whose floor is at most the coordinator's minimum and whose cap covers the published estimate plus 293 sats accepts whatever a reachable round shows it, for every number of participants, script mix and iteration order, whether change goes to its output script or not. |
| FairBuilds.EveryTransactionIsFair | coordinator/src/bitcoin/tx.rs:100-209 | Every transaction that any run shows, verifies against or assembles is settled among exactly the coins registered and the outputs accepted in its round so far: inputs in canonical order with their coins as previous outputs, the denomination to each of the distinct output scripts, and to everybody left with 294 sats or more beyond denomination and share exactly the rest at their own change address. The share is the fee rate times the size with change for everybody, divided and rounded down, and at most the estimate at registration; the mining fee is at least the rate times the transaction's own size less n - 1, and at most the total plus 293 sats a head. |
| FairBuilds.DisplayIsFair | coordinator/src/api/handlers.rs:529-546 | What a reachable round displays is an honest build, with the estimate for its size as the quoted share and n times that as the total: no less than the charged share and no more than the estimate all inputs were registered under. |
| FairBuilds.RunIsHonest | coordinator/src/round/signing.rs:294-348 | Every transaction in the history of a run is the builder's result for the participants and outputs on record before it, all of them and nobody else. |
| Runs.RunKeepsInvariant | coordinator/src/api/handlers.rs:238-307 | The conjunction of all history invariants holds after every run. |
| Runs.RunIsBacked | coordinator/src/round/signing.rs:496-505 | Every finalize task in flight holds a transaction recorded as assembled under its round id. |
| Steps.RunIsSound | coordinator/src/run.rs:169-345 | Round invariant, task invariant and monitor invariant hold after every run. |
| Steps.StepIsChange | coordinator/src/run.rs:169-345 | Every step of the protocol, from a sound state, is one of six kinds of change (quiet, installation, registration, display, signature, ending) and keeps the state sound. |
| Timing.WatchdogNeverPreempts | coordinator/src/config.rs:486-493 | In every timed run where calls keep to their timeouts, each finalize task waits less than its room (the watchdog delay less 20 s and 10 s per registered input) in all for the scheduler and the lock, and none dies, no round is ever ended by the watchdog. |
| Timing.EveryFinalizeDecides | coordinator/src/round/signing.rs:500-549 | In such a run every finalize that completes finds its round in flight and ends it, as a success or with its own outpoints and answers and exactly the bans they justify: no attribution is lost. |
| Exhibits.WatchdogOvertakes | coordinator/src/run.rs:327-343 | The room is exact: under every valid configuration, in some timed run that keeps every other rule, a full round whose finalize waits just as long as its room is wide is ended by the watchdog. |
| Timing.FinalizeBeatsWatchdog | coordinator/src/config.rs:408-417 | For a valid configuration the calls and the waiting of one finalize take at most 20 + 10 * participants seconds plus the waiting, strictly less than the watchdog delay while the waiting is within the room, and the 3600 s cap does not bite. |
| Timing.RevalidationIsBounded | coordinator/src/round/signing.rs:182-218 | The re-validation loop, call by call and with its early stop, takes at most 10 s per outpoint. |
| Timing.BoundIsReached | coordinator/src/round/signing.rs:182-218 | A slow node that answers every call reaches that bound. |
| Timing.MarginIsExact | coordinator/src/config.rs:486-493 | The worst finalize is shorter than the watchdog delay if and only if there are at most 357 participants. |
| Timing.TimedRunIsRun | coordinator/src/run.rs:328-341 | Dropping the clocks of a timed run gives a run of the protocol. |
| SigningRound.SubmissionDecides | coordinator/src/round/signing.rs:48-162 | In a sound Signing state a submission is recorded exactly if it has the session token of its outpoint, a registered participant who has not signed yet, and a witness that verifies at that outpoint's input; without the first two it is refused as a session error, without the last as a signature error, and leaves no trace. A recorded one that completes the set goes in flight with the signed transaction or stays for the fee-rate ceiling alone. |
| SigningRound.LastSignatureGoesInFlight | coordinator/src/round/signing.rs:135-162 | In terms of one round value: recording the last missing signature always assembles and moves to Broadcast, unless the transaction is over the fee-rate ceiling. |
| SigningRound.SubmissionKeepsOk | coordinator/src/round/signing.rs:48-162 | Every submission keeps the round invariant. |
| RoundInvariant.VerificationDecides | coordinator/src/round/signing.rs:124-130 | Verification passes exactly if the bytes decode to a witness that the library verifies for the unsigned transaction, the previous outputs, the index and the script type, at an input with its previous output. |
| Canonical.BuildSucceeds | coordinator/src/api/handlers.rs:187-187 | The registered inputs of a full-grown round always build: the registration gate rules out insufficient funds. |
| Canonical.OrderIsForgotten | coordinator/src/round/signing.rs:294-348 | Any two iterations of the input map build the same transaction. |
| Canonical.CanonSpendsExactly | coordinator/src/round/signing.rs:294-348 | The canonical transaction spends exactly the registered outpoints, each once, unsigned and with the registered coin's value and script as its previous output. |
| Canonical.CanonPaysNoMoreThanItHolds | coordinator/src/round/signing.rs:434-440 | Its outputs never exceed its inputs, so extraction cannot fail for that reason. |
| Assembly.AssemblyDecides | coordinator/src/round/signing.rs:356-441 | With every witness decodable, assembly yields the signed transaction if its inputs' values are known, cover the outputs and leave a fee below the ceiling, and otherwise the error that names the first of these that fails. |
| Assembly.SignedTxIsCanonical | coordinator/src/round/signing.rs:370-432 | Assembly adds nothing but scripts and witnesses; each witness is the one recorded for its input, and each script the one that witness calls for, over the bytes of the spent script. |
| Assembly.MissingSignatureFails | coordinator/src/round/signing.rs:424-431 | A missing signature makes assembly fail. |
| SigningEngine.BuildCanonicalPsbt | coordinator/src/round/signing.rs:294-348 | The loops over the input map and the outputs compute the build, for the order seen. |
| SigningEngine.AssembleFinalTx | coordinator/src/round/signing.rs:356-441 | The loop that writes witnesses by index computes the specified assembly, including its failures. |
| SigningEngine.ProcessSign | coordinator/src/round/signing.rs:48-162 | The in-place method leaves exactly the specified round and outcome on every path: verification precedes recording, Broadcast comes last. |
| SigningEngine.PostSign | coordinator/src/api/handlers.rs:549-660 | The locked part of the handler leaves exactly the specified round and outcome. |
| RoundStates.RoundState.TransitionTo | coordinator/src/round/state.rs:193-210 | Succeeds exactly on an edge of the state machine; Idle drops the sensitive half and takes the fresh id. |
| RoundStates.RoundState.InstallRound | coordinator/src/round/manager.rs:91-115 | From Idle only: empty registrations, the key published, InputReg. |
| RoundStates.RoundState.RegisterInput | coordinator/src/round/input_reg.rs:37-96 | Adds exactly one input under the canonical key and counts it, or changes nothing and names the first failing check. |
| RoundStates.RoundState.CommitInput | coordinator/src/api/handlers.rs:238-307 | Phase and room are re-checked under the lock; the input that fills the round moves it to OutputReg. |
| RoundStates.RoundState.OnInputRegTimeout | coordinator/src/run.rs:235-273 | A quorum moves on, anything less resets. |
| RoundStates.RoundState.RegisterOutputLogic | coordinator/src/round/output_reg.rs:54-120 | The redeemed set grows by the token exactly when denomination, signature, binding and replay checks pass, in that order of errors. |
| RoundStates.RoundState.PostOutput | coordinator/src/api/handlers.rs:380-450 | The output is appended and its token redeemed together; the last output moves the round to Signing. |
| RoundStates.RoundState.OnOutputRegTimeout | coordinator/src/round/output_reg.rs:20-40 | Missing outputs go through Blame to Idle, otherwise to Signing. |
| RoundStates.RoundState.ForceIdle | coordinator/src/run.rs:28-40 | Acts on the same round still in Broadcast and on nothing else. |
| RoundInvariant.CommitInputKeepsOk | coordinator/src/api/handlers.rs:238-307 | A committed input that passed validation keeps the round invariant. |
| RoundInvariant.CommittedInput | coordinator/src/round/input_reg.rs:37-96 | A commit that succeeds is the old round plus that input, in OutputReg exactly when full, and answers with the signature of the round's key on the blinded message and the session token of that outpoint. |
| RoundInvariant.CommitDecides | coordinator/src/api/handlers.rs:238-307 | A commit succeeds exactly in InputReg, with room left, for an outpoint not yet in the round and a blinded message the key signs. |
| RoundInvariant.PostOutputKeepsOk | coordinator/src/api/handlers.rs:380-450 | An accepted output keeps the round invariant, including distinct scripts, exact tokens and, on the last one, a buildable transaction. |
| RoundInvariant.OutputDecides | coordinator/src/round/output_reg.rs:54-120 | An output is taken exactly in OutputReg, with 32-byte token and randomizer, the denomination, a token signature that verifies under the round's key, a token message bound to the parsed address, and a token not redeemed yet; and the answer that a token is used is given exactly to whoever meets all of this but the last. |
| RoundInvariant.OutputTimeoutDecides | coordinator/src/round/output_reg.rs:20-40 | At the deadline missing outputs end the round in a fresh idle one, and a round with all of them moves on to Signing. |
| RoundInvariant.AcceptedOutputOk | coordinator/src/round/output_reg.rs:92-118 | The binding and replay checks alone make a newly accepted script different from all earlier ones. |
| RoundInvariant.OutputTimeoutOnlyBlames | coordinator/src/round/output_reg.rs:20-40 | In every sound OutputReg state the timeout ends the round: the branch to Signing is never taken. |
| RoundInvariant.InputTimeoutKeepsOk | coordinator/src/run.rs:235-273 | The registration deadline keeps the round invariant. |
| Coordinators.Coordinator.RunTimer | coordinator/src/run.rs:231-343 | Each timer's critical section on the shared objects is the protocol's firing step, and the ban file keeps agreeing with the list for every key of which no line was lost. |
| Coordinators.Coordinator.FinishBroadcast | coordinator/src/round/signing.rs:500-549 | The finalize task's locked half on the shared objects is the protocol's step, and the ban file keeps agreeing with the list for every key of which no line was lost. |
| Coordinators.Coordinator.PostSign | coordinator/src/api/handlers.rs:549-660 | The sign handler's critical section is the protocol's step, with a finalize task spawned exactly when the outcome is ready. |
| Coordinators.Coordinator.CommitInput | coordinator/src/api/handlers.rs:238-307 | The input handler's commit is the protocol's step. |
| Coordinators.Coordinator.PostOutput | coordinator/src/api/handlers.rs:380-450 | The output handler's critical section is the protocol's step. |
| Coordinators.Coordinator.StartRound | coordinator/src/run.rs:195-230 | The monitor's installation, with its re-check under the lock, is the protocol's step. |
| Coordinators.Coordinator.Act | coordinator/src/run.rs:169-345 | What the monitor does with what it saw is the protocol's step, with exactly the timer it names spawned. |
| Coordinators.Coordinator.CheckPause | coordinator/src/run.rs:182-189 | Comparing the clock with the pause is the protocol's step. |
| Coordinators.Coordinator.Poll | coordinator/src/run.rs:170-175 | Reading phase and id together is the protocol's step. |
| Coordinators.Coordinator.IsBanned | coordinator/src/api/handlers.rs:104-127 | The ban check answers for the canonical outpoint, whatever spelling was sent. |
| Coordinators.Coordinator.SnapshotRegistered | coordinator/src/api/handlers.rs:159-170 | The snapshot is the set of registered outpoints. |
| Coordinators.Coordinator.GetTx | coordinator/src/api/handlers.rs:459-546 | The display path answers with the same build as signing, the round id and the two fee fields. |
| Coordinators.Coordinator.constructor | coordinator/src/run.rs:87-125 | A process start holds an idle round, the loaded bans, a zero counter and no pause. |
| BlameEngine.DetectNonSigners | coordinator/src/round/blame.rs:68-80 | Returns exactly the registered keys without a recorded signature. |
| BlameEngine.OnSigningTimeout | coordinator/src/round/blame.rs:236-278 | Bans every non-signer in memory, appends a line for each whatever its fate, ends the round through Blame, and asks for a full abort exactly at the cap or with nobody to blame. |
| BlameEngine.SigningTimer | coordinator/src/run.rs:287-326 | The guarded deadline applies the specified verdict to bans, file, counter and pause, or nothing if stale. |
| BlameEngine.RevalidateSpentInputs | coordinator/src/round/signing.rs:182-218 | The loop with its error counter and break computes the specified attribution. |
| BlameEngine.ApplyBroadcastFailureBlame | coordinator/src/round/signing.rs:233-283 | Bans in memory, appends to the file whatever the fate of the lines, sets counter and pause and ends the round as the verdict says. |
| BlameEngine.FinishBroadcast | coordinator/src/round/signing.rs:500-549 | A finalize that finds its round in flight ends it with the specified accounts; any other changes nothing. |
| BlameEngine.BanEach | coordinator/src/round/signing.rs:246-252 | Every outpoint is banned in memory; the file is what one append each leaves, whichever lines land, are lost or are torn. |
| BanJournal.PersistedAgrees | coordinator/src/round/blame.rs:117-131 | Whatever an ending bans, the file keeps answering as the list does, now and later, for every key of which no line was lost. |
| BanJournal.LostLineIsForgotten | coordinator/src/round/signing.rs:249-252 | After a lost line file and list agree on its key if and only if the file says the same already. |
| BanJournal.LineIsLoadedExactly | coordinator/src/round/blame.rs:117-131 | The line of an unexpired entry appended to a readable file is loaded like a line of its own if and only if all of its text reaches the disk and nothing unended but blanks stands before it. |
| BanJournal.TornLineSpoilsTheNext | coordinator/src/round/blame.rs:129-131 | A torn line also costs the next line appended behind it: later loads see neither. |
| BanJournal.StartAgrees | coordinator/src/run.rs:91-107 | At a start from a readable file whose later records of a key end no earlier, file and list agree. |
| Blame.RevalidationIsExact | coordinator/src/round/signing.rs:182-218 | An outpoint is attributed if and only if the node was asked about it and reported it spent, that is, with no two errors in a row before its turn. |
| Blame.TwoErrorsSaveTheNext | coordinator/src/round/signing.rs:208-214 | Two errors before its turn let a spender go, two errors after it do not: concrete answers for both. |
| Attribution.EndingIsFair | coordinator/src/round/blame.rs:236-278 | The bans of an ending are exactly what its cause justifies, in both directions for every cause. |
| Attribution.ChangeKeepsAccounted | coordinator/src/round/blame.rs:68-80 | Participants and signers of every round, live or ended, are what its registration and signature events say. |
| Reckoning.ChangeKeepsReckoned | coordinator/src/round/signing.rs:233-283 | Every change keeps the accounts explained by the history: bans traced and kept, pause the latest armed, counter the streak. |
| Reckoning.JudgedCounter | coordinator/src/round/signing.rs:257-271 | With a backoff, an ending arms the pause exactly when its streak calls for it. |
| Reckoning.ThirdBlamePauses | coordinator/src/run.rs:301-325 | Three counted failures with nothing clearing between them: the third arms. |
| BanStore.RestartsAreInvisible | coordinator/src/run.rs:91-116 | After any orderly sequence of bans, restarts and compactions the list answers every later query as one that never restarted. |
| BanStore.SteadyLifeIsOrderly | coordinator/src/round/blame.rs:117-131 | One configured duration and a clock that does not run backwards make every such sequence orderly. |
| BanStore.ReloadAgreesExactly | coordinator/src/round/blame.rs:139-165 | A reload agrees with the list of a process that never stopped, for a key and from a time on, if and only if, for a readable file, the last record of the key is unexpired or all its records are expired, and, for an unreadable one, the key is not banned. |
| BanStore.ShorterRebanResurrects | coordinator/src/round/blame.rs:139-165 | A shorter ban recorded after a longer one makes a restart resurrect the longer. |
| BanStore.CompactionKeepsLoads | coordinator/src/round/blame.rs:176-199 | Loading at a later time from the compacted file equals loading from the original. |
| BanStore.CompactedFileStartsAlike | coordinator/src/round/blame.rs:176-199 | A restart from the compacted file begins with the same list. |
| BanStore.BanFile.Compact | coordinator/src/round/blame.rs:176-199 | Stopped after any number of file operations, the file is the old one or the complete new one with its last line ended. |
| BanStore.BanFile.LoadUnexpired | coordinator/src/round/blame.rs:139-165 | The loop keeps unexpired records in order, skips blank and garbled lines and loses everything on a read error. |
| BanStore.BanFile.Append | coordinator/src/round/blame.rs:117-131 | One line is added at the end, or lost, or torn; behind a torn line it only lengthens that one. |
| BanStore.BanList.Ban | coordinator/src/round/blame.rs:31-37 | The entry of the outpoint's hash is replaced. |
| BanStore.BanList.IsBanned | coordinator/src/round/blame.rs:42-48 | Banned strictly before the expiry. |
| BanStore.BanList.LoadEntries | coordinator/src/run.rs:100-107 | Later records of one hash replace earlier ones. |
| CoinJoinTx.BuildCoinJoinPsbt | coordinator/src/bitcoin/tx.rs:100-209 | The builder with its loops computes the specified result: errors first, canonical order, denominations, change, previous outputs. |
| CoinJoinTx.BuildForgetsOrder | coordinator/src/bitcoin/tx.rs:112-123 | With distinct outpoints success and result are invariant under permutation of the inputs. |
| CoinJoinTx.AnswerForgetsOrderExactly | coordinator/src/bitcoin/tx.rs:147-157 | For inputs with distinct outpoints the whole answer, errors included, is the same for every arrangement if and only if all inputs that cannot pay are worth the same. |
| CoinJoinTx.ErrorNamesFirstPoorInput | coordinator/src/bitcoin/tx.rs:147-157 | The value named by the error does depend on the order: for a pair below the denomination it decides, unless both are worth the same. |
| CoinJoinTx.InputsAreCanonical | coordinator/src/bitcoin/tx.rs:159-206 | Transaction inputs ascend strictly by outpoint, and each previous output belongs to the input at its own index. |
| CoinJoinTx.ChangeOfConcat | coordinator/src/bitcoin/tx.rs:174-184 | Change outputs follow the order of the inputs. |
| CoinJoinTx.ValueIsConserved | coordinator/src/bitcoin/tx.rs:134-184 | Inputs minus outputs are n fee shares plus the folded dust, between the total less n - 1 and the total plus 293 n, where the total is the fee rate times 10 + 68, 58 or 91 per input and 31, 43 or 32 for each of 2 n outputs. |
| CoinJoinTx.PaysForItsSize | coordinator/src/bitcoin/tx.rs:130-146 | A successful build pays at least the fee rate times its own virtual size, counted over its inputs by type and its actual outputs, less n - 1. |
| CoinJoinTx.BuildSettles | coordinator/src/bitcoin/tx.rs:134-206 | A successful build is the whole transaction described output by output: version, lock time, sequence numbers, previous outputs, denominations, and change for exactly those with 294 sats or more left, for the one share that the rate and the sizes determine. |
| CoinJoinTx.DenominationsComeFirst | coordinator/src/bitcoin/tx.rs:167-172 | The first n outputs carry the denomination, in the order of the scripts; at most n change outputs follow. |
| CoinJoinTx.NetCostBounds | coordinator/src/bitcoin/tx.rs:174-184 | Each participant pays between the fee share and the fee share + 293. |
| CoinJoinTx.EstimateCoversFeeShare | coordinator/src/bitcoin/fee.rs:29-42 | For every round size from the minimum up and every allowed script mix, the charged share is at most the estimate at the minimum. |
| CoinJoinTx.GatedInputsBuild | coordinator/src/bitcoin/tx.rs:147-157 | Inputs worth the denomination plus that estimate never fail for funds. |
| Fees.EstimateFallsWithRoundSize | coordinator/src/bitcoin/fee.rs:29-42 | The estimate never rises with the number of participants. |
| Fees.EstimateClosedForm | coordinator/src/bitcoin/fee.rs:29-42 | The floored estimate is the per-head cost plus the floored share of 10 vbytes at the fee rate. |
| InputOrder.SortForgetsOrder | coordinator/src/bitcoin/tx.rs:112-123 | Sorting forgets the order of distinct outpoints. |
| InputOrder.AtMostMeansPrecedes | coordinator/src/bitcoin/tx.rs:112-123 | The order of outpoints is decided by the first byte in which the ids differ, and for equal ids by the output index. |
| InputOrder.SortInPlace | coordinator/src/bitcoin/tx.rs:122-123 | The in-place sort computes the specified order. |
| Outpoints.ParseAcceptsExactlySpellings | coordinator/src/round/input_reg.rs:99-106 | Accepted are exactly 64 hex digits of either case, a colon, an optional plus sign and the number behind leading zeros. |
| Outpoints.RenderParses | coordinator/src/round/input_reg.rs:59-59 | Parsing the canonical key gives the outpoint back. |
| Outpoints.RenderIsInjective | coordinator/src/round/input_reg.rs:59-59 | Distinct outpoints have distinct keys. |
| Outpoints.RenderReads | coordinator/src/round/input_reg.rs:59-59 | The key read character by character: two lower-case hex digits for each byte of the id, last byte first, a colon, and the index in decimal without leading zeros. |
| Outpoints.SpellingsShareOneKey | coordinator/src/api/handlers.rs:109-119 | Every accepted spelling of an outpoint leads to one registration and ban key. |
| Ownership.TypeIsDerivedAndAllowed | coordinator/src/bitcoin/utxo.rs:164-200 | The accepted script type is derived from the chain and allowed, and does not depend on what the proof declares. |
| Ownership.ValidatedUtxoMeetsGate | coordinator/src/bitcoin/utxo.rs:73-127 | A coin that passes is worth the denomination plus the estimate, has an allowed type and was shown to be owned by the proof sent for it. |
| Ownership.ProofDecides | coordinator/src/bitcoin/utxo.rs:164-207 | A proof is accepted for a type exactly if the chain's script has that type, it is allowed, the version is 1 or 2, a declared type agrees, and the witness the proof carries verifies for this script, outpoint and round. |
| Ownership.ValidationDecides | coordinator/src/bitcoin/utxo.rs:73-148 | A coin passes with given value, script and type exactly if it is new to the snapshot, the node reports it unspent with that value and script, the value meets the requirement, and the proof is accepted for that type. |
| World.ValidatedConfigIsSane | coordinator/src/config.rs:384-466 | Startup validation accepts exactly the configurations that meet what the engine relies on together with the limits on network, timeouts, rates and output type. |
| ClientCheck.AcceptedMeansSafe | client/src/round/sign.rs:37-61 | Whatever the PSBT: if the client signs, it is paid the denomination at its script, at least its floor of outputs carry the denomination, and input value minus everything paid to its scripts is between 0 and its cap, or a tenth of the denomination without one. |
| ClientCheck.AcceptanceIsExact | client/src/round/sign.rs:37-61 | The client signs if and only if it is paid the denomination at its script, the outputs that carry it, counted in 32 bits, meet its floor, and the coin that the first spend of its outpoint shows is worth at least what its scripts receive and at most that plus its cap, or a tenth of the denomination without one. |
| ClientCheck.HonestRoundIsAccepted | client/src/round/sign.rs:37-61 | In an honest round large enough for the floor the client signs if and only if its net cost is within its cap. |
| ClientCheck.RoomForDustIsEnough | client/src/round/sign.rs:119-139 | A cap of the fee share plus 293 is always enough. |
| ClientCheck.CountIsCardinality | client/src/round/sign.rs:102-116 | The count is the number of outputs with the denomination. |

## Left out

- HTTP, JSON and base64 handling, rate limits, request timeouts, Tor, PKARR discovery and the command line: they carry requests to the modelled steps.
- RSA, ECDSA, Schnorr, BIP-322, PSBT bytes and address formats: arbitrary functions, as said under Assumptions.
- Integer width of amounts, times and counters: sums are unbounded, so u64 overflow in amounts times fee rate and the wrap of the 32-bit blame counter are not modelled; the 32-bit truncation in the client's anonymity count and the 32-bit parse of output indices are.
- How long scheduling, polling and waiting for a lock take: `Timing`, `Deadlines` and `Starts` take bounds on them as hypotheses; all other results hold whatever they are.
- What an append reports to its caller, who only logs it; and a file created empty by an append that then fails, which loads as a missing one.
- Zeroing of memory when a round's sensitive half is dropped.
- The two clock readings of one ending (ban time and pause time) are one.
- The early phase checks of the output and sign handlers, which can only reject before the lock is taken and are repeated under it.
- The sort of the standard library: an in-place insertion sort stands for it.
- The transaction estimate against the real virtual size: registered addresses may have any script type.
- A node answer whose amount or script cannot be read: the model's answers are well-formed, unspent, missing or an error.
- Bot rotation, capability publishing and the client's other commands.
