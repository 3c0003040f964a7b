# A model of the system suspend service

The suspend service decides when an Android device may be suspended.  One thread, the autosuspend
thread, tries again and again to write `mem` to `/sys/power/state`; clients switch it on and off and
hold wake locks against it; callbacks tell clients what happened, and bounded lists record it.  This
project models the service in `suspend/1.0/default` and proves what it keeps to.

## Structure

| file | what it models |
|---|---|
| `Autosuspend.dfy` | the protocol: the autosuspend thread, client calls, four mutexes, the condition variable and time, as a step system |
| `AutosuspendLocks.dfy`, `AutosuspendInvariant.dfy`, `AutosuspendThread.dfy`, `AutosuspendCalls.dfy`, `AutosuspendProof.dfy` | the invariant of that system and the proof that every step keeps it |
| `AutosuspendScript.dfy` | what the thread and each call are to do, as one would write it without concurrency, over the events of a run |
| `AutosuspendTrace.dfy`, `AutosuspendHistory.dfy`, `AutosuspendEvents.dfy` | that every run follows that script, that the data is what its events tell, and that the events are honest |
| `AutosuspendTheorems.dfy` | what follows for every run |
| `AutosuspendProgress.dfy` | no step is missing and the service never hangs |
| `AutosuspendRun.dfy` | runs that suspend: with no wake lock, with 2^32 of them, and by force with one |
| `SystemSuspend.dfy` | the calls on the guarded fields in place, tied to the protocol's steps |
| `Backoff.dfy` | `updateSleepTime`: backoff arithmetic and suspend statistics |
| `WakeupReasons.dfy` | parsing of the wakeup-reason file |
| `Recency.dfy`, `KeyedList.dfy` | least-recently-used order, and a list of nodes with a lookup table |
| `WakeupList.dfy`, `WakeLockEntryList.dfy` | the two statistics lists, in place, and their histories |
| `WakeLockTimes.dfy` | what `totalTime` and `isActive` of an entry say when wake locks of one name and process overlap |
| `WakeLockReports.dfy` | `maxTime` and `activeTime`, and what clients see after whole histories |
| `ControlService.dfy` | the callback registries, and the death of clients |
| `Common.dfy` | an option type and distinctness |

### The protocol

A run is a sequence of actions: an agent (the thread, or a client call) takes a mutex it waits for,
runs to the next point where another agent can interfere, wakes up with or without a notification,
times out, or a new call arrives, or time passes.  `Exec` is the state after a run from the start of
the service; the theorems are about every run.  What the kernel answers (the wakeup count, whether a
write succeeds, the suspend time, the wakeup reasons), which waiter `notify_one` picks, and how many
callbacks a notification copies are free choices of the step.  `RunSleep`, `RunCount`, `RunWrite` and
`RunReport` are the thread's loop (`SystemSuspend.cpp:304-402`); `RunEnable`, `DisableLocked`,
`RunAcquire`, `RunReleaseEnter` and `RunRelease` are the client calls (`SystemSuspend.cpp:174-284`,
`SystemSuspendAidl.cpp:30-64`, `SystemSuspendHidl.cpp:32-62`).  The suspend counter wraps at 2^32, and
spurious wakeups are possible at any time.

The proof gives each program point an assertion about the shared data and one agent, so that a step is
checked against its own agent and against one arbitrary other.  A stretch of code is one step only if
it is under the mutex that guards what it writes; `GuardedData` proves that this is so.

Every step also tells events: what it observed, what the kernel answered, what it wrote.  The script in
`AutosuspendScript.dfy` is a reference for them that knows no program points and mutexes: the loop as one
state machine over the thread's events, each client call as another over its own, and folds of the
events for tokens, counter, writes, outcomes and wakeups.  `FollowsScript` shows that the interleaved
system refines it, `EventsAreHonest` that the events are what was the case, and `FlagsAreTold` and
`AttemptsAreAnswers` that the fields are what the events say.

### Where the code departs from what is written about it

- The comment on `updateSleepTime` gives the closed form `min(B * S^(n-N), M)`, which leaves out that
  every step rounds to whole milliseconds.  The code meets the comment exactly while the values of the
  formula are whole (`FormulaExactIff`), hence for every whole scale factor (`ExactBackoff`), not in
  general (`FormulaFailsOffIntegers`); otherwise it stays within `RoundingDrift`.
- Backoff with `B < M` and `S > 1` need not reach the cap: some history does if and only if an attempt
  can count as bad and the first step already grows the base by rounding (`ReachesCapIff`).  Otherwise
  the sleep time is the base after every history (`StaysBelowCap`), as with base 1 ms and scale 1.4
  (`CapOutOfReach`).
- `WakeLockInfo` documents `totalTime`, `maxTime`, `activeTime` and `isActive` as the time a wake lock has
  been active, the longest time without interruption, the time since it was activated, and its status.
  Several wake locks can share one name and process and so one entry, and then all four can be wrong.
  An acquire of a key that is already held drops the time since the entry last changed
  (`OverlapLosesTime`).  A release that leaves others held clears the flag, so that later refreshes pass
  the entry over, up to the next release (`RefreshPassesOver`).  Both cut a hold in two for `maxTime`
  (`OverlapCutsMaxTime`).  Every reader of the statistics refreshes them first; for what it then sees
  `ReportedEntryIff` gives, field by field, the exact condition on the events under which the field is
  what it is documented to be, in time order and with wake locks released after they are acquired.
  `totalTime` and `maxTime` never exceed it.  Alternating acquires and releases are enough for all of
  it (`AlternationIsEnough`), not necessary.
- No wake lock is held when `mem` is written unless a multiple of 2^32 of them are (`MemWriteIsSafe`);
  there is a run in which 2^32 are (`WrapIsPossible`).

## Model

| member | source | states |
|---|---|---|
| AutosuspendTheorems.MemWriteIsSafe | suspend/1.0/default/SystemSuspend.cpp:349-380 | Whenever the thread is at its write of `mem`, in any interleaving: it owns both mutexes, autosuspend is enabled with a token registered although neither is re-read since the last unlock, the count is nonempty and was written in this same hold of the mutex, and no wake lock is counted if and only if fewer than 2^32 are |
| AutosuspendTheorems.EveryMemWriteJustified | suspend/1.0/default/SystemSuspend.cpp:327-376 | Every past write of `mem` followed, in one unbroken hold of `mAutosuspendLock`, a write of the nonempty wakeup count read in that iteration of the loop |
| AutosuspendTheorems.ThreadMatchesFlags | suspend/1.0/default/SystemSuspend.cpp:297-314 | There are never two autosuspend threads; enabled holds iff the duplicate-free token list is nonempty, and then a thread that will see it is live, so disabling and re-enabling never strands the service; with the mutex free, created holds iff a thread exists |
| AutosuspendTheorems.NoLostWakeup | suspend/1.0/default/SystemSuspend.cpp:341-345 | A thread blocked and not notified has a reason to be: autosuspend is enabled and, in the counter wait, some wake lock is counted; `notify_one` at zero and `notify_all` on disable are enough |
| AutosuspendTheorems.NotifiedWithReason | suspend/1.0/default/SystemSuspend.cpp:203-210 | A thread blocked in the condition variable is notified only if autosuspend was disabled or a wake lock released since it began to wait |
| AutosuspendTheorems.CounterConservation | suspend/1.0/default/SystemSuspend.cpp:262-284 | In every run the counter is the number of AIDL and HIDL wake locks that have incremented and not decremented it, modulo 2^32; a lock decrements at most once, and exactly once when a release has finished |
| AutosuspendTheorems.NoUnderflow | suspend/1.0/default/SystemSuspend.cpp:273-278 | With fewer than 2^32 locks counted, a decrement starts from a positive counter and is of a counted lock |
| AutosuspendTheorems.RateLimit | suspend/1.0/default/SystemSuspend.cpp:315-339 | Two consecutive writes of `mem` are at least the sleep time apart that the attempts before the second call for, as the kernel answered them, across disabling, thread exit and re-enabling |
| AutosuspendTheorems.RateLimitFormula | suspend/1.0/default/SystemSuspend.cpp:409-424 | For a whole scale factor that distance is the commented formula of the number of bad attempts in a row |
| AutosuspendTheorems.WaitsAreExact | suspend/1.0/default/SystemSuspend.cpp:317-321 | Every timed wait of a run is for exactly the sleep time that the attempts before it call for |
| AutosuspendTheorems.WaitEndsOnTime | suspend/1.0/default/SystemSuspend.cpp:318-321 | A thread blocked in a timed wait can time out exactly from the end of that wait on |
| AutosuspendTheorems.SleepIsAccounted | suspend/1.0/default/SystemSuspend.cpp:428-430 | The recorded sleep time never exceeds the sum of the completed timed waits, nor this the time passed |
| AutosuspendTheorems.AttemptsAgree | suspend/1.0/default/SystemSuspend.cpp:376-401 | Outside the stretch from a write of `mem` to the next loop head, writes, recorded attempts, wakeup-list updates and notification rounds are equal in number |
| AutosuspendTheorems.FollowsScript | suspend/1.0/default/SystemSuspend.cpp:303-403 | At every moment of every run the thread has done just what its loop asks for (when to wait and when to retry at once, the checks, the two writes, the report, every callback) and every call what it owes, never astray |
| AutosuspendTheorems.NobodyOwesUnseen | suspend/1.0/default/SystemSuspend.cpp:174-284 | A call is over exactly when it has done all it owes |
| AutosuspendTheorems.EventsAreHonest | suspend/1.0/default/SystemSuspend.cpp:303-403 | Every event a step tells is what was observed, answered or done at it, in particular the kernel's answers, and leaving `mAutosuspendLock` is always told |
| AutosuspendTheorems.FlagsAreTold | suspend/1.0/default/SystemSuspend.cpp:174-216 | The tokens are those given to enable since the last disable, each once, in order; enabled holds iff there are any; the counter is acquires less releases on 32 bits |
| AutosuspendTheorems.AttemptsAreAnswers | suspend/1.0/default/SystemSuspend.cpp:376-398 | The i-th recorded outcome is the kernel's answer to the i-th write of `mem` with the times read after it, the i-th recorded wakeup the parse of the reasons read after it, and sleep time and statistics are those of these outcomes |
| AutosuspendTheorems.ForceWrites | suspend/1.0/default/SystemSuspend.cpp:246-260 | A client about to leave `forceSuspend` has written `mem` in that hold of the mutex, whatever wake locks are held |
| AutosuspendTheorems.DisableDisables | suspend/1.0/default/SystemSuspend.cpp:203-216 | After the disabling step autosuspend is off, no token is left and no waiter un-notified |
| AutosuspendTheorems.LoopHeadHoldsOneMutex | suspend/1.0/default/SystemSuspend.cpp:307-312 | Every path back to the loop head owns `mAutosuspendLock` and no other mutex |
| AutosuspendTheorems.CallbacksHoldNothing | suspend/1.0/default/SuspendControlService.cpp:115-148 | Whoever is invoking client callbacks owns no mutex of the service |
| AutosuspendTheorems.GuardedData | suspend/1.0/default/SystemSuspend.h:116-121 | A step that changes the counter or a flag is taken by the owner of `mAutosuspendLock`, one that changes the tokens by the owner of the token mutex |
| AutosuspendTheorems.KernelWritesAreGuarded | suspend/1.0/default/SystemSuspend.cpp:246-260 | Whoever writes the wakeup count or `mem`, `forceSuspend` included, owns `mAutosuspendLock` and leaves every wake lock and the counter as they were |
| AutosuspendTheorems.NoCyclicWait | suspend/1.0/default/SystemSuspend.h:104-106 | In no reachable state is a set of agents stuck on itself over the mutexes and the once flags of wake locks |
| AutosuspendTheorems.ServiceFits | suspend/1.0/default/SystemSuspend.cpp:382-398 | With every configuration, the sleep-time update and the parser have the two properties the protocol relies on |
| AutosuspendTheorems.ReplayedIsReplay | suspend/1.0/default/SystemSuspend.cpp:382-387 | The sleep time the protocol carries is the one `Backoff` computes from the outcome history |
| AutosuspendProof.InvNext | suspend/1.0/default/SystemSuspend.cpp:303-403 | Every step of the thread, of a client, of the condition variable or of time keeps the invariant |
| AutosuspendProof.InvReachable | suspend/1.0/default/SystemSuspend.cpp:303-403 | The invariant holds after every run |
| AutosuspendHistory.HistoryNext | suspend/1.0/default/SystemSuspend.cpp:303-403 | Every step keeps program points, data and the events told so far in agreement |
| AutosuspendHistory.HistoryReachable | suspend/1.0/default/SystemSuspend.cpp:303-403 | They agree after every run |
| AutosuspendProof.CallInterference | suspend/1.0/default/SystemSuspend.cpp:174-284 | No client call disturbs what any other agent, the thread included, relies on where it is |
| AutosuspendProof.ThreadInterference | suspend/1.0/default/SystemSuspend.cpp:303-403 | Nor does a step of the thread disturb a client call |
| AutosuspendThread.ThreadStep | suspend/1.0/default/SystemSuspend.cpp:303-403 | A step of the thread keeps the shared invariant and establishes the assertion of the point it leads to |
| AutosuspendCalls.CallStep | suspend/1.0/default/SystemSuspend.cpp:174-284 | A step of a client call establishes its next assertion and changes no more than others allow for |
| AutosuspendCalls.ReleaseNotifies | suspend/1.0/default/SystemSuspend.cpp:276-278 | Since at most one agent waits, `notify_one` at zero leaves no un-notified waiter whose reason to wait is gone |
| AutosuspendLocks.LockInvReachable | suspend/1.0/default/SystemSuspend.h:104-114 | In every run the recorded mutex owners are exactly the agents whose program point holds the mutex |
| AutosuspendLocks.Exclusive | suspend/1.0/default/SystemSuspend.h:104-106 | Two agents never hold the same mutex |
| AutosuspendProgress.RunningGoesOn | suspend/1.0/default/SystemSuspend.cpp:303-403 | No step is missing: in every reachable state an agent that waits for no mutex, notification or once flag has a next step |
| AutosuspendProgress.NeverStuck | suspend/1.0/default/SystemSuspend.cpp:174-407 | The service never hangs: in every reachable state with an agent not waiting for a notification, one such agent can take a mutex, wake up notified, or run |
| AutosuspendRun.SuspendIsPossible | suspend/1.0/default/SystemSuspend.cpp:297-380 | With any configuration some run brings the thread to its write of `mem` |
| AutosuspendRun.WrapIsPossible | suspend/1.0/default/SystemSuspend.cpp:262-271 | With any configuration some run brings the thread to its write of `mem` while 2^32 wake locks are held, the counter having wrapped |
| AutosuspendRun.ForceIgnoresWakeLocks | suspend/1.0/default/SystemSuspend.cpp:246-253 | With any configuration some run writes `mem` by force while a wake lock is held |
| SystemSuspend.Fields.EnableAutosuspend | suspend/1.0/default/SystemSuspend.cpp:174-201 | In place, the call makes the change of the protocol's step; it answers true iff autosuspend was off, and leaves it on with the token registered |
| SystemSuspend.Fields.DisableAutosuspend | suspend/1.0/default/SystemSuspend.cpp:203-216 | Clears tokens and flag and wakes every waiter, as the protocol's step does |
| SystemSuspend.Fields.IncSuspendCounter | suspend/1.0/default/SystemSuspend.cpp:262-271 | Makes the counter change of the protocol's acquire step, with 32-bit wrap-around |
| SystemSuspend.Fields.DecSuspendCounter | suspend/1.0/default/SystemSuspend.cpp:273-284 | Makes the change of the protocol's release step; exactly one waiter is notified iff the counter became zero and there was one |
| SystemSuspend.WakeLockObject.constructor | suspend/1.0/default/SystemSuspendAidl.cpp:30-33 | Constructing a wake lock makes the change of the protocol's acquire step, once |
| SystemSuspend.WakeLockObject.ReleaseOnce | suspend/1.0/default/SystemSuspendAidl.cpp:44-49 | The first release makes the whole change of a release step of the protocol, counter and notified waiter; any later one changes nothing |
| SystemSuspend.AcquireAndRelease | suspend/1.0/default/SystemSuspendHidl.cpp:32-52 | A wake lock released any number of times, destruction included, takes one acquire and one release step and leaves the counter as it was before its construction |
| Backoff.SleepTimer.constructor | suspend/1.0/default/SystemSuspend.cpp:144-150 | The timer starts at the base sleep time with no bad attempts and empty statistics |
| Backoff.SleepTimer.UpdateSleepTime | suspend/1.0/default/SystemSuspend.cpp:426-476 | In place, one attempt takes the fields to the value the pure update gives, which the lemmas below characterise over whole histories |
| Backoff.RoundHalfEven | suspend/1.0/default/SystemSuspend.cpp:470-472 | Rounding is to a nearest whole number, the even one of two |
| Backoff.NanosToMillis | suspend/1.0/default/SystemSuspend.cpp:438-441 | Nanoseconds become the nearest whole number of milliseconds, at most 500000 ns away, the even one of two |
| Backoff.ReplayIsIterated | suspend/1.0/default/SystemSuspend.cpp:456-475 | After any outcome history the bad count is the length of its bad suffix, and the sleep time is the base scaled, rounded and capped once for each of those beyond the threshold |
| Backoff.FormulaExactIff | suspend/1.0/default/SystemSuspend.cpp:409-419 | For S >= 1, throughout any history of attempts, code and commented formula agree iff every value of the formula on the way is a whole number of milliseconds |
| Backoff.RunExactIff | suspend/1.0/default/SystemSuspend.cpp:409-419 | The same along a run of n bad attempts, whether or not an attempt can be bad |
| Backoff.FormulaWhileIntegral | suspend/1.0/default/SystemSuspend.cpp:409-419 | As long as the formula's values are whole the code gives them |
| Backoff.FormulaFailsOffIntegers | suspend/1.0/default/SystemSuspend.cpp:409-419 | A configuration where after two failed attempts the code sleeps 3 ms and the comment says 2.25 ms |
| Backoff.ExactBackoff | suspend/1.0/default/SystemSuspend.cpp:409-476 | For a whole scale factor the commented formula is exact after every history |
| Backoff.RoundingDrift | suspend/1.0/default/SystemSuspend.cpp:456-475 | For real S > 1, after any history, the sleep time is within (S^k - 1) / (2 (S - 1)) of the formula, k the backoff steps taken; capping included |
| Backoff.SleepTimeInRange | suspend/1.0/default/SystemSuspend.cpp:456-475 | With B <= M and S >= 1 the sleep time stays in [B, M] after every history and never shrinks on a bad attempt |
| Backoff.ReachesCapIff | suspend/1.0/default/SystemSuspend.cpp:432-473 | Some history brings the sleep time to M iff the base is M, or an attempt can count as bad and the base grows in its first step; then every history ending in N + (M - B) or more bad attempts does |
| Backoff.StepsReachCapIff | suspend/1.0/default/SystemSuspend.cpp:463-473 | Repeated steps reach M iff the base is M or grows in its first step, and then M is reached after M - B steps and kept |
| Backoff.StaysBelowCap | suspend/1.0/default/SystemSuspend.cpp:463-473 | If the base is below M and does not grow in its first step, the sleep time is the base after every history |
| Backoff.CapOutOfReach | suspend/1.0/default/SystemSuspend.cpp:463-473 | A configuration with B < M and S > 1 whose sleep time stays B after any number of failed attempts |
| Backoff.HalfStepIsEnough | suspend/1.0/default/SystemSuspend.cpp:463-473 | With B (S - 1) > 1/2, after N + (M - B) or more bad attempts in a row the sleep time is M |
| Backoff.BackoffCounts | suspend/1.0/default/SystemSuspend.cpp:463-468 | `newBackoffCount` is the number of maximal bad runs longer than N, `backoffContinueCount` the sum over runs of max(0, length - N - 1) |
| Backoff.AttemptsSplit | suspend/1.0/default/SystemSuspend.cpp:427-454 | Attempts are counted one each; failures are the attempts that failed, short suspends those that succeeded for more than 0 and less than the threshold |
| Backoff.TotalsAreSums | suspend/1.0/default/SystemSuspend.cpp:438-454 | There is a list of times and one of overheads, each entry that attempt's rounded to the nearest millisecond, so that every total is the sum over the attempts of its kind |
| Backoff.ShortTimeWithinSuspendTime | suspend/1.0/default/SystemSuspend.cpp:443-454 | With nonnegative suspend times, short suspend time never exceeds suspend time |
| Backoff.SleepMillisIsSum | suspend/1.0/default/SystemSuspend.cpp:428-430 | `sleepTimeMillis` is the sum of the sleep times in effect before each attempt of the history |
| WakeupReasons.ReadWakeupReasons | suspend/1.0/default/SystemSuspend.cpp:77-110 | The line loop with its three fallbacks gives the list the next two lemmas characterise, for every file content and for a failed read |
| WakeupReasons.ReadLines | suspend/1.0/default/SystemSuspend.cpp:94-102 | The loop yields the nonempty trimmed lines in order |
| WakeupReasons.ReasonsAreClean | suspend/1.0/default/SystemSuspend.cpp:88-109 | The list is never empty, and its strings are nonempty, trimmed and free of newlines |
| WakeupReasons.ReasonsRoundTrip | suspend/1.0/default/SystemSuspend.cpp:88-109 | Joining the list with newlines and parsing again gives it back |
| WakeupReasons.ReasonsAre | suspend/1.0/default/SystemSuspend.cpp:81-107 | A failed read gives `error`, an empty or all-white file `unknown`, any other its kept lines |
| WakeupReasons.LinesAre | suspend/1.0/default/SystemSuspend.cpp:94-95 | The lines are what newlines separate in the file, a final newline ending the last one |
| WakeupReasons.KeptAre | suspend/1.0/default/SystemSuspend.cpp:94-102 | What is kept is each line trimmed, in order, unless nothing is left of it |
| WakeupReasons.TrimIs | suspend/1.0/default/SystemSuspend.cpp:96 | Trimming takes all white space off both ends and nothing else |
| WakeupReasons.JoinIsJoined | suspend/1.0/default/WakeupList.cpp:42 | For any separator and parts, the join is the parts one after the other with a separator between each and the next |
| Recency.RecentIsByRecency | suspend/1.0/default/WakeupList.cpp:74-82 | The order specification lists exactly the keys touched, each once, latest touch first |
| Recency.ByRecencyIsUnique | suspend/1.0/default/WakeupList.cpp:74-82 | No other list does |
| Recency.TouchedIsKept | suspend/1.0/default/WakeupList.cpp:46-63 | Moving to the front or inserting and cutting, touch by touch, keeps the most recent keys of the whole history |
| KeyedList.TableFinds | suspend/1.0/default/WakeupList.cpp:46-57 | A lookup table in one-to-one agreement with the list finds a key iff the list holds it, and finds its node |
| KeyedList.OneToOneErased | suspend/1.0/default/WakeupList.cpp:79-82 | Erasing a node and its key keeps that agreement |
| KeyedList.OneToOneInserted | suspend/1.0/default/WakeupList.cpp:74-77 | So does inserting a node under a new key |
| WakeupList.List.constructor | suspend/1.0/default/WakeupList.cpp:27 | The list starts valid and empty, for every capacity |
| WakeupList.List.Insert | suspend/1.0/default/WakeupList.cpp:74-77 | Puts an entry in front of the unchanged others; list and table still agree |
| WakeupList.List.Erase | suspend/1.0/default/WakeupList.cpp:79-82 | Takes out the entry at its iterator and no other |
| WakeupList.List.Evict | suspend/1.0/default/WakeupList.cpp:66-72 | Cuts the list to capacity from the back |
| WakeupList.List.Update | suspend/1.0/default/WakeupList.cpp:37-64 | Keeps the list equal to the replay of the whole history of keys; the key of this update, the reasons with a `;` between each and the next, comes to the front; empty reasons change nothing |
| WakeupList.KeysAreMostRecent | suspend/1.0/default/WakeupList.cpp:37-82 | After any history, for every capacity including 0, the list holds in order the distinct keys by most recent update, cut to capacity |
| WakeupList.CountIsSinceInsertion | suspend/1.0/default/WakeupList.cpp:46-63 | Each count is the number of updates of its key since the update that last found it absent |
| WakeupList.UpdatesAreConserved | suspend/1.0/default/WakeupList.cpp:37-82 | Resident and evicted counts add up to the number of updates |
| WakeLockEntryList.List.constructor | suspend/1.0/default/WakeLockEntryList.cpp:127-128 | The list starts valid and empty, for every capacity |
| WakeLockEntryList.List.EvictIfFull | suspend/1.0/default/WakeLockEntryList.cpp:133-143 | Leaves room for one by dropping the last entry of a full list, and nothing otherwise |
| WakeLockEntryList.List.InsertEntry | suspend/1.0/default/WakeLockEntryList.cpp:148-152 | Puts an entry in front of the unchanged others; list and table still agree |
| WakeLockEntryList.List.DeleteEntry | suspend/1.0/default/WakeLockEntryList.cpp:157-161 | Takes out the entry at its iterator and no other |
| WakeLockEntryList.List.Create | suspend/1.0/default/WakeLockEntryList.cpp:332-335 | Evicting first and inserting then is inserting and cutting to capacity |
| WakeLockEntryList.List.Replace | suspend/1.0/default/WakeLockEntryList.cpp:337-347 | Deleting a stale node and inserting its updated copy moves the entry to the front with its new value |
| WakeLockEntryList.List.AcquireKey | suspend/1.0/default/WakeLockEntryList.cpp:330-348 | A listed key is counted and moved to the front, a new one comes in at the front for the last one of a full list |
| WakeLockEntryList.List.UpdateOnAcquire | suspend/1.0/default/WakeLockEntryList.cpp:325-349 | Keeps list and table in agreement, bounded, and equal to the replay of the whole history of events |
| WakeLockEntryList.List.ReleaseKey | suspend/1.0/default/WakeLockEntryList.cpp:356-376 | A listed key has its running time added and moves to the front, a missing one changes nothing |
| WakeLockEntryList.List.UpdateOnRelease | suspend/1.0/default/WakeLockEntryList.cpp:351-377 | The same for a release |
| WakeLockEntryList.List.Refresh | suspend/1.0/default/WakeLockEntryList.cpp:386-394 | The loop brings every active entry up to date where it is and touches no other |
| WakeLockEntryList.List.UpdateNow | suspend/1.0/default/WakeLockEntryList.cpp:381-395 | The same for a refresh |
| WakeLockEntryList.KeysAreMostRecent | suspend/1.0/default/WakeLockEntryList.cpp:133-161 | After any history the list holds in order the distinct keys by most recent touch, cut to capacity; touches are acquires and releases that hit, and refreshes do not reorder |
| WakeLockEntryList.ListBounded | suspend/1.0/default/WakeLockEntryList.cpp:133-161 | Keys are distinct and never more than the capacity |
| WakeLockEntryList.EntryIsItsLife | suspend/1.0/default/WakeLockEntryList.cpp:325-395 | Every listed entry was created by an acquire that found its key absent, has been listed since, and depends only on the events since |
| WakeLockEntryList.ActiveCountIsAcquires | suspend/1.0/default/WakeLockEntryList.cpp:340-344 | `activeCount` is the number of acquires of the key since insertion |
| WakeLockEntryList.TimesAreBounded | suspend/1.0/default/WakeLockEntryList.cpp:337-394 | For any history in time order, overlapping locks included: 0 <= activeTime <= maxTime <= totalTime <= lastChange - insertion, and inactive means activeTime 0 |
| WakeLockEntryList.TimesAreExact | suspend/1.0/default/WakeLockEntryList.cpp:325-395 | With alternating acquires and releases in time order, totalTime is the sum and maxTime the maximum of the hold durations, wherever and however often refreshes fall |
| WakeLockEntryList.EntryIsBounded | suspend/1.0/default/WakeLockEntryList.cpp:325-395 | After a whole history in time order those bounds hold of every listed entry, from the acquire that inserted it |
| WakeLockTimes.ActiveIffHeld | suspend/1.0/default/WakeLockEntryList.cpp:337-394 | For every history the flag says whether the last acquire or release of the key was an acquire, and lastChange is when an event last changed the entry |
| WakeLockTimes.LocksAreDifference | suspend/1.0/default/WakeLockEntryList.cpp:325-377 | With every release after its acquire the wake locks held are acquires less releases |
| WakeLockTimes.TotalTimeLaw | suspend/1.0/default/WakeLockEntryList.cpp:337-394 | For every history totalTime is the time some wake lock of the key was held, measured on the events alone, except since the last acquire, release or refresh, less what refreshes have passed over since the last change, less what acquires of a held key drop, plus what releases of one not held charge |
| WakeLockTimes.TotalTimeExactIff | suspend/1.0/default/WakeLockEntryList.cpp:340-394 | In time order, with wake locks nested in any way, totalTime never exceeds the time held up to the last acquire, release or refresh, and equals it iff every acquire that finds the key held falls at the instant of the last change and no refresh has come later than that with the flag cleared and a lock still held |
| WakeLockTimes.TotalTimeAfterOwnEvent | suspend/1.0/default/WakeLockEntryList.cpp:351-377 | After an acquire or release of the key, totalTime is the whole time held iff every acquire that found it held fell at the instant of the last change; nested releases do no harm here |
| WakeLockTimes.TotalTimeAfterRefresh | suspend/1.0/default/WakeLockEntryList.cpp:381-395 | After a refresh it is so iff, besides, no lock is held or the flag is set or the refresh falls at the instant of the last change |
| WakeLockTimes.RefreshPassesOver | suspend/1.0/default/WakeLockEntryList.cpp:386-387 | Two wake locks acquired together, one released at t, a refresh at u: one still held, held for u, but inactive with totalTime t and activeTime 0 |
| WakeLockTimes.TotalTimeExactThroughoutIff | suspend/1.0/default/WakeLockEntryList.cpp:340-394 | Without assumptions on order or releases, totalTime is exact on every prefix of a history iff every acquire that finds the key held, every release that does not, and every refresh that finds it held with the flag cleared falls at the instant of the last change |
| WakeLockTimes.FlagExactThroughoutIff | suspend/1.0/default/WakeLockEntryList.cpp:340-367 | isActive says whether a wake lock of the key is held on every prefix of a history iff every release finds at most one held |
| WakeLockReports.MaxTimeLaw | suspend/1.0/default/WakeLockEntryList.cpp:337-394 | For every history maxTime is the longest span from an acquire or release of the key to the next release or an earlier refresh, and activeTime the running one |
| WakeLockReports.MaxTimeWithinLongestHold | suspend/1.0/default/WakeLockEntryList.cpp:366-372 | However wake locks nest, maxTime never exceeds the longest uninterrupted hold |
| WakeLockReports.MaxTimeExactIff | suspend/1.0/default/WakeLockEntryList.cpp:366-392 | maxTime is the longest uninterrupted hold iff some hold of that length was recorded by a release or refresh with no acquire or release of the key after its first instant |
| WakeLockReports.OverlapCutsMaxTime | suspend/1.0/default/WakeLockEntryList.cpp:340-370 | Two wake locks acquired t apart and both released at u: held for u without interruption, maxTime u - t |
| WakeLockReports.ActiveTimeAfterRefresh | suspend/1.0/default/WakeLockEntryList.cpp:387-392 | After a refresh activeTime is the time since the key came to be held, or 0 if it is not, iff it is not held, or the flag is set and the key was not acquired later than that, or it came to be held at this instant |
| WakeLockReports.EntryTotalTimeIff | suspend/1.0/default/WakeLockEntryList.cpp:325-395 | After a whole history in time order, of a bounded list with eviction, the bound and the iff for totalTime hold of every listed entry since its insertion, wake locks acquired before it included |
| WakeLockReports.ReportedEntryIff | suspend/1.0/default/SuspendControlService.cpp:185-186 | What a reader sees: after such a history ending in a refresh, the conditions for totalTime, maxTime, isActive and activeTime hold of every listed entry, each as an iff |
| WakeLockTimes.AlternationIsEnough | suspend/1.0/default/WakeLockEntryList.cpp:340-372 | With alternating acquires and releases at most one wake lock is held, every release is covered, and no acquire, release or refresh is amiss |
| WakeLockTimes.OverlapLosesTime | suspend/1.0/default/WakeLockEntryList.cpp:340-344 | Two wake locks, the second acquired and released at time t, the first released at u: held for u, totalTime u - t |
| WakeLockEntryList.EntryIsExact | suspend/1.0/default/WakeLockEntryList.cpp:325-395 | After a whole history in time order, an entry whose key alternated has exact times and acquire count since its insertion |
| ControlService.Service.RegisterCallback | suspend/1.0/default/SuspendControlService.cpp:43-63 | Appends, duplicates allowed; links a remote binder exactly when it is not yet registered, and refuses if that fails |
| ControlService.Service.RegisterWakelockCallback | suspend/1.0/default/SuspendControlService.cpp:65-88 | Appends iff the binder is new under the name and, if remote, can be linked; otherwise leaves at most an empty vector behind |
| ControlService.Remove | suspend/1.0/default/SuspendControlService.cpp:92-96 | What is left is the other binders as often as before |
| ControlService.RemoveLeaves | suspend/1.0/default/SuspendControlService.cpp:92-96 | And in the order they had |
| ControlService.Service.BinderDied | suspend/1.0/default/SuspendControlService.cpp:90-113 | Both registries lose every registration of the binder and no other: repeats and order stay, name by name, and names left without callbacks go |
| ControlService.Service.NotifyWakelock | suspend/1.0/default/SuspendControlService.cpp:115-135 | Every callback registered for the name is told, in order, once each, that the lock was acquired or that it was released, as the call says |
| ControlService.Service.NotifyWakeup | suspend/1.0/default/SuspendControlService.cpp:137-148 | Every registered callback is told, in order, the success flag and the reasons of this wakeup |
| ControlService.RegistrationSteps | suspend/1.0/default/SuspendControlService.cpp:49-62 | The steps of one registration, uninterrupted, are the whole call |
| ControlService.WakelockRegistrationSteps | suspend/1.0/default/SuspendControlService.cpp:71-87 | Likewise for a wake-lock callback |
| ControlService.DeathSteps | suspend/1.0/default/SuspendControlService.cpp:90-113 | The steps of a death notification, uninterrupted, take that binder out of both registries and change nothing else in them |
| ControlService.InvReachable | suspend/1.0/default/SuspendControlService.cpp:43-113 | In every run of registrations, deaths and notifications, living remote clients are linked and dead ones about to be removed |
| ControlService.DeadAreNotForgotten | suspend/1.0/default/SuspendControlService.cpp:43-113 | A dead client still in a registry has a death notification pending or in processing; no callback is twice under one wake-lock name |
| ControlService.DeathBegins | suspend/1.0/default/SuspendControlService.cpp:90-96 | Taking up a notification takes out every registration of its binder, and no other, from the one registry |
| ControlService.DeathCleansUp | suspend/1.0/default/SuspendControlService.cpp:98-113 | Finishing it takes its binder out of every vector of the other, after which it is in neither; every other registration stays, repeats and order included |
| ControlService.QuietMeansClean | suspend/1.0/default/SuspendControlService.cpp:90-113 | Once no notification is pending, no dead client is registered anywhere |

## Left out

- `~SystemSuspend`: a 100 ms timed wait for the thread, best effort; the protocol runs without destruction of the service.
- The `/sys/power/wake_lock` mode (`mUseSuspendCounter` false): the bookkeeping is then the kernel's, and `main.cpp` never asks for it.
- `checkAutosuspendClientsLivenessLocked`: its only call is commented out.
- Kernel and sysfs access (`createKernelEntry`, `getKernelWakelockStats`, `getSuspendStats`, `readSuspendTime`, `reopenFileUsingFd`, the zygote wake-unlock write): results are free inputs, and kernel-only fields of an entry do not appear.
- `dump`, `operator<<`, logging and the wiring in `main.cpp`: text output and start-up.
- `wifi/keystore`, `net/netd`, `keystore2`: thin interfaces whose implementations are not in this repository.
- Floating point: the scale factor is a real, so the rounding of a double product is not modelled; statistics counters are unbounded integers; only the suspend counter has a width.
- Small mutexes (`mSuspendInfoLock`, `mStatsLock`, `WakeupList::mLock`): nothing is called while they are held, so their critical sections are single steps.
- The protocol is modelled on values, as a step system; updates of the fields in place are in `SystemSuspend.dfy`, call by call, without interleaving.
- The registries in the protocol: only their mutexes and a free number of copied callbacks appear there; their contents are the separate machine of `ControlService.dfy`.
- Callbacks that call back into the service appear as calls of other agents.  A wake lock's once flag, which is not a mutex, still runs while its release is being notified.  For remote clients that is harmless, since both the callback and `release` are oneway; a callback in the service's own process that released that very lock again would wait for itself.
- Fairness: some agent can always go on (`NeverStuck`), but that a given one eventually gets its mutex depends on the scheduler.
- A null return pointer of the AIDL `acquireWakeLock`: it is refused before anything happens.
- WakeLockEntryList.List.UpdateOnAcquire: needs capacity 1 or more, because at capacity 0 the first acquire steps back from the end of an empty list, which C++ leaves undefined; the other calls work at capacity 0.
- WakeLockEntryList.List.EvictIfFull: needs capacity 1 or more, for the same reason.
- WakeLockEntryList.TimesAreBounded: assumes timestamps in lock order do not decrease; the service samples them before it takes the mutex, so two racing calls can break that.
- WakeLockEntryList.TimesAreExact: assumes that order and alternation; `WakeLockTimes.TotalTimeLaw` says what totalTime is without either.
- WakeLockTimes.TotalTimeExactIff: assumes that order too, and that a wake lock's release is recorded after its acquire, which holds because clients get the lock after its acquire is recorded; `TotalTimeExactThroughoutIff` assumes neither.
- WakeLockReports.EntryTotalTimeIff: assumes the same of the whole history.
- WakeLockReports.ReportedEntryIff: assumes the same too.
- SystemSuspend.WakeLockObject.ReleaseOnce: `std::call_once` is a flag here; callers that wait for one another are in the protocol's `RunReleaseEnter`.
