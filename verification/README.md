# soda-pool: a verified model

soda-pool keeps a pool of gRPC channels to the addresses a domain name resolves to, and soda-pool-build
generates clients that retry over such a pool. This project models both in Dafny and proves what their
code guarantees:

- **the pool**: a ready list drawn from round-robin, a heap of broken addresses with exponential backoff
  packed into timestamps, the operations that move addresses between them (as classes whose methods are
  proved against functions), and the whole concurrent pool as a step machine, one critical section a step,
  with theorems over every run;
- **the limit on forced rechecks**, a process-wide stamp behind a lock, with any number of callers;
- **the retry loop** of every generated method, against every policy and every pool, and under the default
  policy over the modelled pool, forced rechecks included;
- **the client generator**: what the parser accepts, what the generator writes, that parsing the output
  gives the methods back, and that building a directory again, in any order, changes nothing.

`dafny verify dfyconfig.toml` checks everything.

## Reading guide

| file | modules | subject |
|---|---|---|
| `Types.dfy`, `Seqs.dfy` | `Types`, `Seqs` | shared values and sequence facts |
| `Backoff.dfy` | `Backoff` | delays, the count in the low byte of a timestamp |
| `ReadyChannels.dfy` | `ReadyList`, `RoundRobin` | the ready list, fairness |
| `BrokenEndpoints.dfy` | `BrokenHeap` | the heap and its notifier |
| `Pool.dfy` | `Pool` | `check_dns`, `get_channel`, `report_broken` run one at a time |
| `RecheckGate.dfy` | `RecheckGate` | the 500 ms limit under concurrency |
| `PoolMachine.dfy` | `PoolMachine` | the concurrent pool: states and steps |
| `PoolSafety.dfy` | `PoolSafety` | invariants of every run |
| `PoolRuns.dfy`, `ReadyRuns.dfy` | same names | whole-run theorems: conservation and the doctor's choice; the ready list |
| `PoolWitness.dfy` | `PoolWitness` | the sequential operations as runs; counterexample runs |
| `LostAddresses.dfy` | `LostAddresses` | conservation with DNS checks installing their lists |
| `BackoffRuns.dfy` | `BackoffRuns` | how the backoff of an address grows in the concurrent pool |
| `CallRuns.dfy` | `CallRuns` | one call, and one forced recheck, among all other tasks |
| `Retry.dfy`, `RetryPool.dfy` | same names | the generated loop; the same under the default policy over the pool and its forced rechecks |
| `RustAst.dfy`, `Parser.dfy`, `Generator.dfy`, `Builder.dfy` | same names | the client generator |

Conventions. Time is in integer nanoseconds; `Backoff.InstantsAreTimestamps` ties that to chrono's
seconds-and-nanoseconds timestamps. Each clock reading is a parameter of the method, or the machine's clock,
which never goes back. What a connect, the resolver or a server answers is a parameter or a choice of the
step. `BinaryHeap`, `Notify`, `RwLock` and `FuturesUnordered` appear by their contracts: `peek` and `pop`
give a maximum and the rest of the order means nothing; one permit is stored; writers exclude everybody; the
first future to complete wins and the others are dropped. `u8` sums wrap, as in a release build (a debug
build panics there instead).

## Where the code and its comments part

The model follows the code; the statements below are proved.

- `next_broken_ip_address` is described as giving the next address to test. The heap is a max-heap, so it
  gives the *latest* entry, once that is due: of two addresses reported a second apart, both overdue, it hands
  out the second (`PoolWitness.LatestFirstFromStart`), and it gives the earliest only if all fall due together
  (`BrokenHeap.PeekIsEarliestIff`). An address that keeps failing is therefore tried again and again while all
  others wait (`PoolRuns.DoctorStaysWithOneAddress`).
- Forced rechecks are described as at least 500 ms apart. The stamp is not read again under the write lock,
  and two callers that overlap can recheck back to back (`RecheckGate.OverlapBreaksSpacing`); callers that do
  not overlap in that window keep the spacing (`RecheckGate.RechecksSpaced`), and what is missing is exactly
  the second reading (`RecheckGate.SpacedRunIff`).
- `get_channel` is described as rechecking all dead servers. It returns the answer of the first future to
  complete, even a failed connect (`Pool.ForcedAnswerIff`).
- `RetryPolicy` is described as ending the call, with the last error, when no connection is left. The loop
  returns an `unavailable` status instead (`Retry.CallTrace`), exactly when `get_channel` finds nothing ready
  and then is too soon after the last stamp for a recheck, or finds nothing after another caller's, or
  nothing under the lock and nothing after its own (`RetryPool.UnavailableIff`). A call that fails within
  500 ms of the stamp, with nothing else ready by then, so ends although addresses are left to recheck
  (`RetryPool.FastFailureEnds`); but if each turn comes 500 ms after the last stamp, each recheck connects and
  each call fails, it retries any number of times (`RetryPool.NoBoundByEntries`), within a budget of entries
  and time (`RetryPool.RetriesBounded`).
- `report_broken` is described as removing the endpoint. It removes one entry: the address is gone exactly
  when it was listed at most once (`Pool.ReportBrokenEffect`). A list that names each address once stops doing
  so exactly when a recheck adds an address that is already ready at that moment, or a DNS check installs a
  list with a repetition (`ReadyRuns.UniqueStepIff`); with a resolver that repeats no address only the
  first happens (`ReadyRuns.ReadyUniqueFromStartIff`). A forced recheck beside the doctor does it
  (`PoolWitness.ForcedRecheckDuplicates`), but so does a DNS check beside the doctor
  (`PoolWitness.DnsRaceDuplicates`), and so does a second report of an address the doctor is connecting to
  (`PoolWitness.LateReportDuplicates`). And an address listed once can be back after its report without
  any new connect, exactly when some task in flight carries an entry for it
  (`PoolWitness.ReportedStaysOutIff`), as a DNS check may (`PoolWitness.ReportOverwritten`).
- `check_dns` is commented as replacing the lists with the new ones. It installs them one after the other. An
  address the resolver names can be lost if the check is dropped in between
  (`LostAddresses.DroppedCheckLosesAddress`), or if a report takes it out of the ready list in between
  (`LostAddresses.ReportBetweenSwapsLosesAddress`); `LostAddresses.NamedAddressNeverLost` says what rules
  that out.
- A method or client whose name is a raw identifier makes the generator panic: it appends to the printed
  name, and `Ident::new` refuses the raw prefix (`Generator.GeneratesIff`).

## Model

| member | source | states |
|---|---|---|
| Backoff.PackedWord | soda-pool/src/broken_endpoints.rs:159 | masking with 0xFFFFFF00 and or-ing a byte in replaces exactly the low byte of the nanoseconds |
| Backoff.LargestNanos | soda-pool/src/broken_endpoints.rs:155-162 | setting nanoseconds is refused if and only if the value exceeds 1 999 999 999 |
| Backoff.PackRoundTrip | soda-pool/src/broken_endpoints.rs:150-167 | storing any count in any valid timestamp never panics, is read back exactly, keeps second and leap-second region, and shifts it by at most 255 ns |
| Backoff.PackOrder | soda-pool/src/broken_endpoints.rs:123-124 | timestamps in different 256 ns buckets keep their order whatever their counts; within one bucket the counts decide |
| Backoff.InstantsAreTimestamps | soda-pool/src/broken_endpoints.rs:150-167 | outside leap seconds, order, packing and reading the count agree with plain nanosecond arithmetic |
| Backoff.BackoffValues | soda-pool/src/broken_endpoints.rs:141-148 | the delay is 2^(n-1) s for 1 to 7 failures, 64 s from then on, 1 s for a count of 0 |
| Backoff.NextTestBounds | soda-pool/src/broken_endpoints.rs:127-130 | a scheduled test lies within 255 ns of now plus the delay, strictly later than now, and carries the count |
| Backoff.DelayGrowsUnlessWrapped | soda-pool/src/broken_endpoints.rs:70-73 | a further failure shortens the delay if and only if the `u8` count was 255; below the cap it doubles it |
| Backoff.FailureCount | soda-pool/src/broken_endpoints.rs:66-81 | for any readings, after a first failure and k failed rechecks (k at most 254) the stored count is k+1 |
| Backoff.FailureRun | soda-pool/src/broken_endpoints.rs:66-81 | the delays scheduled over a run of n failures total 2^n - 1 s up to the seventh, 64 s more for each later one, within 255 ns a round |
| Backoff.WrapRestartsBackoff | soda-pool/src/broken_endpoints.rs:71 | after 256 failures the count reads 0 and the wait is 1 s again, within 255 ns either way |
| ReadyList.RemoveTakesFirst | soda-pool/src/ready_channels.rs:43-48 | `remove` takes out exactly the first entry for the address and keeps all others as a multiset, through `swap_remove` |
| ReadyList.RemoveMovesOnlyTheLast | soda-pool/src/ready_channels.rs:45-46 | entries keep their place, except that the last fills the gap |
| ReadyList.RemoveIsCompleteIff | soda-pool/src/ready_channels.rs:43-48 | after `remove` the address is gone if and only if it was listed at most once |
| ReadyList.ReadyChannels.constructor | soda-pool/src/ready_channels.rs:9-13 | a new list is empty, its counter 0 |
| ReadyList.ReadyChannels.FindChannel | soda-pool/src/ready_channels.rs:16-28 | `find` gives the channel of the first entry for the address, or none |
| ReadyList.ReadyChannels.GetAny | soda-pool/src/ready_channels.rs:30-37 | an empty list gives none and leaves the counter; otherwise the entry at counter mod length, and the counter wraps at 2^64 |
| ReadyList.ReadyChannels.Add | soda-pool/src/ready_channels.rs:39-41 | the entry is appended |
| ReadyList.ReadyChannels.RemoveIp | soda-pool/src/ready_channels.rs:43-48 | the position loop and swap compute the removal the lemmas are about |
| ReadyList.ReadyChannels.ReplaceWith | soda-pool/src/ready_channels.rs:50-52 | the whole list is replaced |
| RoundRobin.Draw | soda-pool/src/ready_channels.rs:30-37 | consecutive draws from an unchanged list return the positions the fairness lemmas count |
| RoundRobin.Fair | soda-pool/src/ready_channels.rs:35-36 | while the counter does not wrap, k draws return each of n positions floor(k/n) or ceil(k/n) times |
| RoundRobin.FairAcrossWrap | soda-pool/src/ready_channels.rs:35-36 | across one wrap two positions differ by at most 2, and by at most 1 if n divides 2^64 |
| RoundRobin.WrapUnfair | soda-pool/src/ready_channels.rs:35-36 | the difference of 2 occurs |
| BrokenHeap.InsertEffect | soda-pool/src/broken_endpoints.rs:75-81 | retain-then-push leaves exactly one entry for the address, the new one, and all entries for others as often as before; uniqueness is kept |
| BrokenHeap.UniqueIsOrderFree | soda-pool/src/broken_endpoints.rs:38 | one entry per address is a property of the heap's contents, not of its internal order |
| BrokenHeap.PeekIsEarliestIff | soda-pool/src/broken_endpoints.rs:83-91 | `peek` gives the latest entry, of those the greatest address, which is the earliest if and only if all fall due together |
| BrokenHeap.BrokenEndpoints.constructor | soda-pool/src/broken_endpoints.rs:36-40 | a new heap is empty and no permit is stored |
| BrokenHeap.BrokenEndpoints.ReplaceWith | soda-pool/src/broken_endpoints.rs:49-55 | the heap is replaced; a permit is stored only if the new one is not empty |
| BrokenHeap.BrokenEndpoints.GetAddress | soda-pool/src/broken_endpoints.rs:57-64 | the first entry for the address in iteration order, or none |
| BrokenHeap.BrokenEndpoints.AddAddress | soda-pool/src/broken_endpoints.rs:66-68 | the address gets a fresh entry with count 1, and a permit is stored |
| BrokenHeap.BrokenEndpoints.ReAddAddress | soda-pool/src/broken_endpoints.rs:70-73 | the address gets an entry with the count increased (wrapping), and a permit is stored |
| BrokenHeap.BrokenEndpoints.AddWithCount | soda-pool/src/broken_endpoints.rs:75-81 | the retain loop and push compute the insertion the lemmas are about |
| BrokenHeap.BrokenEndpoints.Peek | soda-pool/src/broken_endpoints.rs:91 | a maximum by time, then address |
| BrokenHeap.BrokenEndpoints.NextBrokenIpAddress | soda-pool/src/broken_endpoints.rs:86-113 | undisturbed, the loop hands out the maximum at the first reading that has reached its deadline, removing just it; otherwise the heap is unchanged and nothing was due |
| BrokenHeap.HandOutDetermined | soda-pool/src/broken_endpoints.rs:88-111 | the contents of the heap and the readings determine whether an entry is handed out, which one, and at which reading |
| Pool.ManagedChannelPool.constructor | soda-pool/src/pool.rs:55-57 | a new pool has both lists empty |
| Pool.ManagedChannelPool.CheckDns | soda-pool/src/pool.rs:105-149 | a resolver error changes nothing; otherwise the loop installs the two lists of `Scan`, and stores a permit if some address is broken |
| Pool.ManagedChannelPool.Recheck | soda-pool/src/pool.rs:151-166 | success only appends to the ready list; failure only renews the broken entry with its count increased |
| Pool.ManagedChannelPool.GetChannel | soda-pool/src/pool.rs:239-301 | a ready channel at once; else, with another caller at the lock, what is ready once it is free; else nothing within 500 ms of the stamp; else what is ready under the lock, or, the stamp renewed, once the first future has completed on the lists as the others have left them |
| Pool.DrawChannels | soda-pool/src/pool.rs:244-246 | calls of `get_channel` in a row on an unchanged list with channels return the positions that `RoundRobin` counts, so its fairness bounds hold of them, and touch neither lists nor stamp |
| Pool.ManagedChannelPool.ReportBroken | soda-pool/src/pool.rs:306-309 | one ready entry removed, a fresh broken entry added, a permit stored |
| Pool.ScanConserves | soda-pool/src/pool.rs:119-144 | the two lists together hold each resolved address exactly as often as it was resolved, and nothing else |
| Pool.ScanConsistentIff | soda-pool/src/pool.rs:119-148 | from any lists, one check ends with unique keys, the lists disjoint and their union the resolved set, if and only if the resolver repeated no address |
| Pool.ScanOrigin | soda-pool/src/pool.rs:122-144 | a ready address keeps its first channel even if it was also broken, a broken one keeps its backoff, and only an unknown address is connected to |
| Pool.ScanInOrder | soda-pool/src/pool.rs:119-144 | both lists follow the order of the resolver's answer, and together use each of its positions once |
| Pool.ScanFixpoint | soda-pool/src/pool.rs:122-148 | checking the same addresses again changes nothing, whatever the network would now answer |
| Pool.ForcedAnswerIff | soda-pool/src/pool.rs:275-300 | whatever the lists have become by then, a forced recheck yields a channel if and only if the future that completes first connected, or left a ready entry: a DNS check keeps one or connects to a resolved address not in the heap |
| Pool.DnsFirstEffect | soda-pool/src/pool.rs:276-282 | a DNS check that completes first leaves the lists alone on a resolver error, and else splits its answer between them, each entry from where `ScanOrigin` says |
| Pool.RecheckFirstEffect | soda-pool/src/pool.rs:284-298 | a recheck that completes first appends its channel, or leaves exactly one entry for its address, with one failure more as a `u8` and that count's backoff, and all other entries |
| Pool.ReportBrokenEffect | soda-pool/src/pool.rs:303-309 | the broken list holds exactly one entry for the address, counting 1, others keep theirs; the address is still ready if and only if it was listed twice or more |
| RecheckGate.StepKeepsInv | soda-pool/src/pool.rs:240-271 | every step of any caller keeps: lock exclusive, log in order, spacing unless overlapping, and what each `try_read` saw |
| RecheckGate.EveryRun | soda-pool/src/pool.rs:240-271 | the same over every run of any number of callers, and stamps never decrease |
| RecheckGate.RechecksExcludeEachOther | soda-pool/src/pool.rs:232-233 | at most one forced recheck runs at a time in the process |
| RecheckGate.RechecksSpaced | soda-pool/src/pool.rs:228-230 | a caller that passed `try_read` only after another took the write lock stamps at least 500 ms after it |
| RecheckGate.StampKeepsSpacingIff | soda-pool/src/pool.rs:257-262 | a stamp keeps all rechecks 500 ms apart if and only if the comparison still holds of the stamp found under the write lock |
| RecheckGate.SpacedRunIff | soda-pool/src/pool.rs:249-263 | over every run of any callers, all rechecks are 500 ms apart if and only if every stamp replaced an old enough one |
| RecheckGate.OverlapBreaksSpacing | soda-pool/src/pool.rs:249-263 | a run in which two overlapping callers recheck with no delay in between |
| RecheckGate.SoloCaller | soda-pool/src/pool.rs:249-263 | a lone caller is refused or stamps, as in the sequential `GetChannel` |
| RecheckGate.BusyOnlyWaits | soda-pool/src/pool.rs:264-270 | a caller that finds the lock taken stays queued until the lock is free or it is dropped, and then ends without a recheck |
| RecheckGate.LeavingFrees | soda-pool/src/pool.rs:249-271 | a caller that ends, or is dropped at any await, gives back the lock if it had it, and leaves all others where they were |
| RecheckGate.EveryoneCanEnd | soda-pool/src/pool.rs:249-301 | from every state any callers can reach, all of them can come to their end without one being dropped: nobody is locked out |
| PoolMachine.PopTakesLatestDue | soda-pool/src/broken_endpoints.rs:89-107 | whatever the doctor is handed was the heap's maximum, is due, and is all the heap loses |
| PoolMachine.DoctorWaits | soda-pool/src/broken_endpoints.rs:91-111 | the doctor parks for good on an empty heap, until the latest deadline on one with nothing due, keeping a stored permit; a notification costs the permit, the end of a sleep does not |
| PoolMachine.DrawsGoRound | soda-pool/src/ready_channels.rs:30-37 | draws in a row in the machine return the positions that `RoundRobin` counts and change only the counter |
| PoolSafety.WakeupStep | soda-pool/src/broken_endpoints.rs:49-113 | every step keeps: parked on an empty heap that is no longer empty implies a permit; parked on a timer without permit implies the heap is empty or its maximum is the timer's entry |
| PoolSafety.ProvenanceStep | soda-pool/src/pool.rs:105-166 | every step keeps: each held channel was connected to the address it is listed under, each held address was resolved or reported, each broken entry was stamped at a recorded failure |
| PoolSafety.EveryRun | soda-pool/src/pool.rs:55-166 | both invariants over every interleaving, with futures dropped at any await |
| PoolSafety.DueEntryIsHandedOut | soda-pool/src/broken_endpoints.rs:86-113 | an idle doctor can always hand out a due maximum: it needs at most a pending permit or the end of a sleep whose deadline has passed |
| PoolSafety.BackoffRespected | soda-pool/src/broken_endpoints.rs:86-148 | no entry is handed out before the failure's time plus its backoff (less 255 ns), and everything left in the heap is then due |
| BackoffRuns.DoctorRenews | soda-pool/src/pool.rs:151-166 | a failed recheck of the doctor leaves exactly one entry for its address, with one failure more as a `u8` and that count's backoff from the clock, all other entries, and a permit |
| BackoffRuns.ForcedRenews | soda-pool/src/pool.rs:284-298 | and so does a failed future of a forced recheck |
| BackoffRuns.EachFailureCounts | soda-pool/src/broken_endpoints.rs:70-81 | over every run in which nothing else inserts an entry for the address or installs a heap, each failed connect of the doctor adds one to its count, modulo 256 |
| BackoffRuns.FailuresAfterReport | soda-pool/src/broken_endpoints.rs:66-81 | after a report and k failed rounds (k at most 254) the entry, in the heap or with the doctor, counts k + 1, whatever interleaves |
| PoolSafety.HeapUniqueInEveryRun | soda-pool/src/broken_endpoints.rs:49-81 | if no resolver answer repeats an address, the heap never holds two entries for one, in any run |
| PoolRuns.NoAddressLost | soda-pool/src/pool.rs:151-166 | in every run that installs no DNS result and drops no half-done report, an address once held stays ready, broken or in flight |
| LostAddresses.NamedAddressNeverLost | soda-pool/src/pool.rs:105-166 | in every run, DNS results installed, an address every answer names is never lost, if no report and no check between its swaps is dropped, and nothing takes the address out of the ready list between the swaps of a check that found it ready |
| LostAddresses.DroppedCheckLosesAddress | soda-pool/src/pool.rs:122-148 | a check of a broken address, overtaken by the doctor and dropped between its two swaps, loses the address it resolved |
| LostAddresses.ReportBetweenSwapsLosesAddress | soda-pool/src/pool.rs:146-148 | nothing dropped: a report that runs between the two swaps of a check is lost together with its address |
| PoolRuns.DoctorStaysWithOneAddress | soda-pool/src/pool.rs:81-93 | after one hand-out, while its connects fail and no other task inserts into or replaces the heap, whatever else all tasks do, every later hand-out is for the same address and every other entry stays |
| ReadyRuns.UniqueStepIff | soda-pool/src/ready_channels.rs:39-52 | a step keeps each address listed once if and only if it neither adds a channel for an address already ready nor installs a DNS list with a repetition |
| ReadyRuns.UniqueRunIff | soda-pool/src/pool.rs:105-166 | no address is ever listed twice along a run if and only if no step of it does either |
| ReadyRuns.ReadyUniqueFromStartIff | soda-pool/src/pool.rs:55-166 | from the pool's start, with a resolver that repeats no address in one answer: no address is ever listed twice if and only if every channel a recheck adds is for an address not ready at that moment |
| ReadyRuns.OutUntilReadded | soda-pool/src/ready_channels.rs:30-52 | along a run, an address not ready is kept out of the list and from every caller if and only if no step puts it there |
| ReadyRuns.KeptOutIff | soda-pool/src/pool.rs:105-166 | every run without a successful connect to the address keeps it out of the list and from every caller, if and only if it is now neither ready nor carried by a DNS check past it or a recheck that has connected |
| PoolWitness.UndisturbedCheckDns | soda-pool/src/pool.rs:105-149 | the machine's DNS task, uninterrupted, has exactly the effect of the sequential `CheckDns` |
| PoolWitness.UndisturbedDoctor | soda-pool/src/broken_endpoints.rs:86-113 | the machine's doctor, uninterrupted, looks once a reading and hands out the entry, at the reading, that the contract of `NextBrokenIpAddress` determines |
| PoolWitness.LatestFirstFromStart | soda-pool/src/broken_endpoints.rs:83-107 | from the pool's start, two reports a second apart and both overdue: the later entry is handed out, and while its connects fail the earlier is never tried |
| PoolWitness.ReportInSteps | soda-pool/src/pool.rs:306-309 | the machine's report, uninterrupted, has exactly the effect of the sequential `ReportBroken` |
| PoolWitness.ReportedStaysOutIff | soda-pool/src/pool.rs:303-309 | after a report, no run without a new connect to the address makes it ready or gives it to a caller, if and only if it was listed at most once and no task in flight carried it |
| PoolWitness.ForcedRecheckDuplicates | soda-pool/src/pool.rs:284-298 | a forced recheck that succeeds leaves the address in both lists; the doctor can then list it twice, and one report leaves it ready |
| PoolWitness.DnsRaceDuplicates | soda-pool/src/pool.rs:119-166 | without any forced recheck: a DNS check during the doctor's connect lists the address twice, and one report leaves it ready |
| PoolWitness.LateReportDuplicates | soda-pool/src/pool.rs:151-166 | without any DNS check: a report during the doctor's connect to the address leads the doctor to list it twice |
| PoolWitness.ReportOverwritten | soda-pool/src/pool.rs:122-148 | a report completed during a DNS check is undone by it, and its broken entry is lost |
| PoolWitness.DroppedReportLosesAddress | soda-pool/src/pool.rs:306-309 | a report dropped between its two halves loses the address |
| PoolWitness.RepeatedAnswerDuplicatesHeap | soda-pool/src/pool.rs:122-144 | a resolver answer with a repeated address can put two entries for it into the heap |
| Retry.CallWithRetry | soda-pool/src/macros.rs:57-108 | against any pool, server and policy, the loop takes the turns `Took` describes and performs exactly their events |
| Retry.TookIsUnique | soda-pool/src/macros.rs:61-107 | number of turns and outcome are determined by the answers |
| Retry.SendsAreTheAttempts | soda-pool-build/src/generator.rs:107-122 | one send for each channel obtained, over that channel, always of the same metadata, extensions and message |
| Retry.JudgementsAreTheFailures | soda-pool-build/src/generator.rs:108-129 | the policy judges exactly the failures, the k-th attempt with tries = k modulo 256 |
| Retry.ReportsAreTheDead | soda-pool-build/src/generator.rs:129-133 | `report_broken` is called exactly for the attempts judged dead, in order, with that attempt's address, even when the verdict is not to retry |
| Retry.SleepsAreTheDelays | soda-pool/src/macros.rs:99-103 | it sleeps exactly the delays the policy asked for, in order |
| Retry.EventsInOrder | soda-pool/src/macros.rs:77-105 | within a turn the request is sent, then the failure judged, then the address reported, then the delay slept |
| Retry.TurnEndsIff | soda-pool/src/macros.rs:67-105 | a turn ends the call as unavailable, with its reply, or not at all, if and only if there is no channel, a response or a verdict of `DoNotRetry`, or a verdict of `Immediately` or `After` |
| Retry.DefaultReportsSourced | soda-pool/src/retry.rs:65-74 | under the default policy exactly the addresses of the failures with a source are reported, in order, and nothing is slept |
| Retry.CallTrace | soda-pool/src/macros.rs:61-107 | a whole call: sends, judgements, reports and delays; every turn but the last was a failure to be retried; it ends as unavailable if and only if the pool yields no channel, and with the last reply if and only if that is a response or a failure not to be retried |
| RetryPool.TakeTurn | soda-pool/src/macros.rs:63-106 | the body of the loop over the pool's `get_channel`, forced recheck included, and `report_broken` does what `Follows` says to lists, counter, stamp and outcome |
| RetryPool.CallDefault | soda-pool/src/macros.rs:61-107 | a whole call over the pool ends as `Calls` says |
| RetryPool.CallsTakeTheLoopsTurns | soda-pool/src/macros.rs:61-107 | its turns are turns of the loop `CallWithRetry` runs, so the trace theorems hold of it |
| RetryPool.TurnByReply | soda-pool/src/retry.rs:65-74 | a response or an error without source ends the call with it, reports nobody and leaves the lists as `get_channel` left them; a failure with a source takes one entry for its address out, puts a fresh one in the heap, and the call goes on |
| RetryPool.CallByReplies | soda-pool/src/macros.rs:61-107 | a whole call ends with the reply of a turn if and only if that turn had a channel and its reply has no source; until then all failed with a source; those are the addresses reported, in order |
| RetryPool.Budget | soda-pool/src/retry.rs:65-74 | ready entries left plus retries equal the initial entries, plus those that forced rechecks made ready (none if none was forced), plus those other tasks added |
| RetryPool.GainedByRechecks | soda-pool/src/pool.rs:275-300 | the forced rechecks of a call make ready at most as many entries each as the resolver names and as are broken, whatever the futures that lose the race have done |
| RetryPool.RechecksTakeTime | soda-pool/src/pool.rs:249-263 | the forced rechecks of one call are 500 ms apart, so the time between its first reading and its last stamp bounds their number |
| RetryPool.RetriesBounded | soda-pool/src/retry.rs:55-74 | retries are at most the initial and added entries plus, for every 500 ms begun, what one recheck can make ready; other callers of any pool may renew the stamp meanwhile |
| RetryPool.UnavailableIff | soda-pool/src/pool.rs:244-300 | a turn ends the call as unavailable if and only if nothing is ready and then it is too soon for a recheck, or waiting for another caller's yields nothing, or nothing is ready under the lock and its own recheck is fruitless |
| RetryPool.FastFailureEnds | soda-pool/src/pool.rs:249-254 | a recheck that connects and a call that then fails within 500 ms of the stamp end as unavailable after one retry, with an address left to recheck |
| RetryPool.NoBoundByEntries | soda-pool/src/retry.rs:59-62 | for every n, from an empty ready list with nobody adding entries, a call retries n times when each turn comes 500 ms after the last stamp, each recheck connects and each call fails |
| RetryPool.ClosedCallEnds | soda-pool/src/retry.rs:55-62 | with nobody adding entries and every forced recheck failing, a call ends within one turn more than there were ready entries |
| RetryPool.CallClosed | soda-pool/src/macros.rs:61-107 | the loop alone with its pool terminates if every forced recheck fails; it forces at most one, last, and every address that was ready is then ready, broken, or dropped by that recheck's DNS check |
| CallRuns.RetriesWithinEntries | soda-pool/src/macros.rs:61-106 | among any number of callers, reports, checks and rechecks, one call retries no more often than there were entries at its start and entries that came in since |
| CallRuns.RetryCosts | soda-pool/src/macros.rs:67-88 | between the draw and the report of a retried call at least one entry leaves the ready list, whoever takes it |
| CallRuns.RaceGains | soda-pool/src/pool.rs:275-300 | the futures of one forced recheck make ready, in any interleaving, at most what the resolver named and one entry a broken address |
| RustAst.FilterSelects | soda-pool-build/src/parser.rs:103-112 | filtering keeps exactly the accepted positions, in order |
| RustAst.CollectExact | soda-pool-build/src/parser.rs:96-98 | collecting results succeeds if and only if each does, and keeps order |
| Parser.AcceptedIff | soda-pool-build/src/parser.rs:114-155 | a function is a gRPC method if and only if it has a receiver and an `impl` parameter whose first trait bound, after any lifetimes, begins `tonic::IntoRequest` |
| Parser.StreamingIsSkipped | soda-pool-build/src/parser.rs:146-151 | an impl parses, or fails, with a streaming function anywhere in it exactly as without it |
| Parser.LastArgIff | soda-pool-build/src/parser.rs:187-257 | the type extracted from a path is t if and only if the path reads `..Ident<t, ..>` |
| Parser.ParsesTo | soda-pool-build/src/parser.rs:157-257 | an accepted method parses to a given result if and only if that has its name, the type T of a first bound `..IntoRequest<T, ..>`, the type U of a result `..Result<..Response<U, ..>, ..>`, and says deprecated just when it is so marked |
| Parser.ParsesIff | soda-pool-build/src/parser.rs:157-257 | an accepted method parses if and only if its declaration has such a request and such a result, and else fails with the one error |
| Parser.PlainRequestYieldsItsType | soda-pool-build/src/parser.rs:114-168 | a request whose first bound is `tonic::IntoRequest<T>` is accepted and always yields T |
| Parser.LifetimeFirstFails | soda-pool-build/src/parser.rs:121-132 | any method accepted for a bound behind a lifetime fails to parse |
| Parser.MethodsExact | soda-pool-build/src/parser.rs:88-112 | an impl parses to one entry per accepted function, in source order, and fails if and only if one of those fails |
| Parser.FileParsesIff | soda-pool-build/src/parser.rs:32-101 | a file parses if and only if, in every module `.._client`, in every impl of a `..Client` with a function `new`, every accepted function declares such a request and result |
| Parser.ClientModuleIff | soda-pool-build/src/parser.rs:42-50 | a module is searched if and only if it is named `.._client` |
| Parser.ClientImplIff | soda-pool-build/src/parser.rs:61-86 | an impl contributes a client if and only if its type is a path whose last identifier ends in `Client` and one of its functions is named `new` |
| Parser.OtherItemSkipped | soda-pool-build/src/parser.rs:64-85 | a module parses the same with, anywhere in it, an impl that has no function `new` (the one that only connects) or is for another type, or anything else |
| Parser.OtherModuleSkipped | soda-pool-build/src/parser.rs:43-49 | a file parses the same with, anywhere in it, anything that is no module `.._client` |
| Parser.FileStructure | soda-pool-build/src/parser.rs:42-101 | the modules and clients found are the selected ones, in source order, each client under the last identifier of its type with its accepted functions |
| Generator.GeneratesIff | soda-pool-build/src/generator.rs:48-83 | generation goes through if and only if no client and no method has a raw name |
| Generator.ImportsReachTheSource | soda-pool-build/src/generator.rs:7-43 | the output has one module per client module, of its name and in order; its import resolves to the source file's module, and each module's to the source's module of that name |
| Generator.ClientInModule | soda-pool-build/src/generator.rs:46-75 | a generated module holds for each client, in order, a struct named after it plus `Pool` and two impls of exactly that struct: the constructors and the methods |
| Generator.ConstructorsTake | soda-pool-build/src/generator.rs:60-70 | `new` takes any channel pool, `new_from_endpoint` an endpoint template, both return the client |
| Generator.RoundTrip | soda-pool-build/src/generator.rs:79-155 | parsing the generated methods gives back, in order, each source method and its `_with_retry` twin, with the same types and deprecation |
| Generator.GeneratedImplParses | soda-pool-build/src/generator.rs:54-75 | the two generated impls parse to the pool client with all those methods, and to none for the constructors |
| Generator.DelegationReachesItsLoop | soda-pool-build/src/generator.rs:94-122 | each plain method calls its own twin, whose loop calls the client method of the plain name |
| Generator.GeneratedFileParses | soda-pool-build/src/generator.rs:7-77 | the generated file parses to the same modules with no clients |
| Generator.NamesDistinctIff | soda-pool-build/src/generator.rs:79-83 | the generated names are distinct if and only if the source names are and none is another plus `_with_retry` |
| Builder.SodaPoolBuilder.constructor | soda-pool-build/src/lib.rs:44-59 | a new builder has no directory |
| Builder.SodaPoolBuilder.SetDir | soda-pool-build/src/lib.rs:61-65 | the directory is set |
| Builder.SodaPoolBuilder.BuildService | soda-pool-build/src/lib.rs:87-116 | one service is parsed, generated and written, or fails leaving the directory as it was |
| Builder.SodaPoolBuilder.BuildClients | soda-pool-build/src/lib.rs:78-117 | without a directory an error; else services in order up to the first error, earlier files staying written |
| Builder.SodaPoolBuilder.BuildAllClients | soda-pool-build/src/lib.rs:128-159 | every listed Rust file is built, those without clients skipped, up to the first other error |
| Builder.OutputBySource | soda-pool-build/src/lib.rs:91-98 | what comes of a source by what the directory holds: nothing to read, no identifier or no Rust, an unextractable method, no client, a raw name, or the generated file |
| Builder.NoIdentNoModule | soda-pool-build/src/parser.rs:23-27 | a source whose stem is a keyword, an underscore, or has a leading digit or a dash ends in a parse error |
| Builder.PassStopsAt | soda-pool-build/src/lib.rs:139-156 | over any directory and listing, the first entry that cannot be built ends the pass with its error, leaving what was written before |
| Builder.PassSucceedsIff | soda-pool-build/src/lib.rs:135-158 | a pass succeeds if and only if it meets no such entry |
| Builder.IsRsIff | soda-pool-build/src/lib.rs:142-146 | the extension is `rs` in any case |
| Builder.ServicesStopAt | soda-pool-build/src/lib.rs:87-95 | the first named service that cannot be built ends the build with its error, also if it merely has no client |
| Builder.ServiceWritten | soda-pool-build/src/lib.rs:97-113 | every other service gets the file generated for it as the directory then is, under its name plus `_pool.rs` |
| Builder.OutputHasNoClients | soda-pool-build/src/lib.rs:93-97 | a generated file parses, and to no clients, so building it is skipped |
| Builder.BuiltHasOutput | soda-pool-build/src/lib.rs:90-113 | after a pass, beside every client-bearing source stands exactly the file generated for it, under its name plus `_pool` |
| Builder.BuiltLeavesTheRest | soda-pool-build/src/lib.rs:104-113 | a file that is no source's output is not touched, and none appears |
| Builder.OrderDoesNotMatter | soda-pool-build/src/lib.rs:119-159 | on a clean directory a pass succeeds with the same result for every listing order, whether or not files written during it are listed |
| Builder.BuildIsIdempotent | soda-pool-build/src/lib.rs:119-159 | a second pass, in any order, changes nothing |
| Builder.NamesakeMakesOrderMatter | soda-pool-build/src/lib.rs:104-113 | if a client-bearing source is named like another's output, listing one or the other first gives different directories, whatever else is there and listed after them |

## Left out

- Endpoint templates, URL substitution and TLS: connecting to an address is a result tagged with that address.
- DNS lookup, the network, the clock and the file system: their answers are parameters or choices of a step; a clock that goes back is not modelled.
- Pool.ManagedChannelPool.GetChannel: other tasks act while it waits for the lock and until the future that completes first does its work, which it then does at a stretch; in the step machine every critical section interleaves.
- Pool.ForcedAnswerIff: a DNS check that completes first finds and swaps at a stretch, on the lists as all others have left them.
- RecheckGate.EveryRun: what the ready list answers is left open (either outcome), since the stamp is shared by all pools; the pool machine has `get_any` without the gate in front of it.
- BrokenHeap.BrokenEndpoints.NextBrokenIpAddress: nothing else touches the heap between its readings; interference is the subject of the step machine, whose doctor does the same when left alone (`PoolWitness.UndisturbedDoctor`).
- Liveness under a fair scheduler: `PoolSafety.DueEntryIsHandedOut` shows the enabled steps, not that they are taken.
- Debug builds: the three `u8` additions that wrap in the model panic there at 255.
- RetryPool.CallDefault: between and within the waits of its turns other tasks may add ready entries, change the heap and renew the stamp, but they take no ready entry away; with other callers that do, `CallRuns.RetriesWithinEntries` bounds the retries.
- RetryPool.TakeTurn: nothing happens between the draw of a channel and the report.
- RetryPool.RetriesBounded: while a forced recheck of the call runs, only its own futures add entries.
- Token-level concerns (printing, formatting, reparsing of generated code), attributes and documentation in the output, and trait impls generated by derive.
- Builder.SodaPoolBuilder.BuildClients: file stems are ASCII, stems with the raw prefix count as no identifiers, and paths outside the directory are not modelled.
- The `define_client!` wrapper, the mock pool, and the examples: they add no behaviour beyond the loop.
