# Verification of the Pulsar plugin

A Dafny 4.11 model of the plugin's concurrent receive loops and shutdown, its startup and rollback, its
configuration handling, its retry schedule and its sending paths, with proofs. `dafny verify dfyconfig.toml`
checks everything.

## What is modelled

**Shared data and critical sections** (`Registry.dfy`, `Meaning.dfy`, `Client.dfy`). `Registry` is the data that
callers share: the maps of consumers, producers and subscriptions, the flags, the wait group, the contexts, two
counters, and a ledger of what has been done to every broker handle (closed, unsubscribed, or dropped from a map
with neither). Each critical section is a function on that data; `Meaning` says what each of them means to a caller
and that none duplicates or forgets a handle. The class `Client.PulsarClient` performs the same sections by
assignments and loops and is proved equal to these functions. Its receive loop, its subscribe calls, its startup and
its cleanup are sequences of them (`Receiving.dfy` and `Made.dfy` hold what their contracts speak of).

**The protocol** (`Protocol.dfy`). A step relation over an unbounded list of threads. A thread is one call of
SubscribeWith, SubscribeWithRegex, Unsubscribe, Close, cleanupWithContext or a sending method; a subscribe call that
succeeds goes on as its receive goroutine. Every mutex acquisition is a step of its own, and the section's work with
the release is a later one. `isClosed`, `getClient` and the producer lookup of a sending call are one step each,
possible while no writer holds the mutex. The select is a free choice among its ready cases, so a message can still
be taken when the close channel is closed. The client library, message arrival, handler outcomes, context
cancellation and the scheduler are unconstrained choices. The steps use the functions of `Registry.dfy`.

**The proof** (`Sums.dfy`, `Invariant.dfy`, `Effects.dfy`, `Preservation.dfy`). One inductive invariant joins
mutexes, flags, wait group, registry, maps, handle ownership, messages and counters. `Effects` does the case
analysis over program counters once and says what a step can do to each concern; `Preservation` derives each part
of the invariant from the effects.

**The theorems.** `Safety.dfy` holds what is true in every reachable state, `Shutdown.dfy` deadlock freedom, the
bound on shutdown and its completion. `Leaks.dfy` has the promises that the code does not keep, each with the exact
condition under which it does and a run that breaks it; it rests on `Withdrawal.dfy`, what can still happen to a
handle that has left its map, and on `Runs.dfy`, which builds runs. `Lifecycle.dfy` is about startup, rollback and
cleanup, and shows that a successful startup is a start state of the protocol. `Calls.dfy` says which calls are turned
away and when, when a loop leaves, and who is cancelled.

**Sequential parts.** `Backoff.dfy`, `Overflow.dfy` and `Schedule.dfy` are the retry schedule with the arithmetic of the
code: float64 products of int64 delays and float32 multipliers, rounded to nearest with ties to even (`Float64.dfy`),
truncated, and converted to int64 with a machine-dependent result on overflow. `Config.dfy` and `Configure.dfy` are
defaulting, validation, Configure and the choice of authentication, `Produce.dfy` sending, `StopOnce.dfy` the two
Stop methods under concurrent callers.

### Findings

- Unsubscribe does not cancel the subscription of the consumer that it removes, although its comment says so. A handler
  can run on the consumer after its Unsubscribe call (`Leaks.HandlerAfterUnsubscribe`). It can if and only if, when the
  consumer is taken out, a loop is dispatching from it, or no cleanup has set closed or holds the state mutex to set
  it and a loop on the consumer is not yet counted, in its select, or has a message in hand
  (`Leaks.UnsubscribeHandlerIff`). Before shutdown it cannot when nothing is subscribed under the name
  (`Leaks.UnsubscribeIsFinal`); after the registry has been drained that is no guarantee, and a subscription whose
  loop is on its way out is no danger.
- A regex consumer can leave the map without being closed (`Leaks.RegexConsumerLost`). The steps that can lose it are the
  exit section of a regex loop of its name and an insert under its name by a call that finds the name unregistered
  (`Leaks.LossIff`). Before shutdown the only one is its own loop's exit, which loses it if and only if no Unsubscribe
  call has taken it (`Leaks.LossBeforeShutdownIff`). Once a cleanup has drained the registry, a call that has dialled
  already overwrites the consumer of a loop that still runs, and that loop's exit then deletes the newcomer's, so both
  are lost (`Leaks.BothConsumersLost`). A cleanup loses the consumers of the regex loops that it waits for
  (`Lifecycle.CleanupSettles`).
- The comment on stopReceivers promises that no goroutine receives from a closed consumer. One can
  (`Leaks.ReceiveAfterClose`), if and only if a loop on the consumer is not yet counted or in its select
  (`Leaks.ReceiveFromClosedIff`, and at the moment of closing `Leaks.CloseStepReceiveIff`). None can before a Wait has
  returned, and no handler call, Ack or Nack ever happens on a closed consumer (`Safety.NoUseAfterClose`).
- A regex call that has looked at the client, and a sending call that has looked a producer up, use it without a lock.
  From every state in which one is about to, it can go on to use it closed (`Leaks.UseAfterClose`, and
  `Leaks.SendAfterClose` for a producer). The client is gone if and only if some cleanup has finished
  (`Safety.ClientGoneIff`); the producer is closed if and only if it has left the map and no Close call still has it in
  hand (`Safety.SendOnClosedIff`).
- A rollback closes every handle created so far if and only if no name was created twice among the producers or among
  the consumers (`Client.PulsarClient.Startup`); the same holds for a cleanup after a successful startup, where the
  overwritten handles are never closed (`Lifecycle.StartAndCleanUp`). When the runtime refuses the shared resource,
  startup fails without any rollback (`Client.PulsarClient.Startup`).
- A handler panic adds two to consumerFailed (`Safety.CounterAgreement`).
- ConnectionManager.Stop can return while its channel is still open (`StopOnce.ConnReturnsEarly`): once any Stop has
  returned, the channel is closed if and only if no other Stop is on its way to the close (`StopOnce.ConnStopOnce`).
  HealthChecker.Stop cannot (`StopOnce.HealthStopOnce`).
- A retry delay can be negative. A multiplier that takes a delay beyond int64 is accepted, the conversion then yields a
  number that depends on the machine (-2^63 on amd64), and a negative one is not above the cap (`Overflow.NegativeDelay`).
  It happens if and only if the first iterate above the cap is no int64 (`Overflow.NegativeDelayIff`), for some
  configuration with a given multiplier and cap if and only if their product is none (`Overflow.OverflowWithIff`), and
  it stays so for all later attempts (`Overflow.NegativeStays`). Infinite and NaN multipliers pass the check as well;
  their products are never an int64 (`Overflow.NoNumber`).
- With a multiplier of exactly 1 a delay above 2^53 nanoseconds can shrink, because float64 cannot hold it. This and the
  overflow are all that can go wrong: for a multiplier of at least 1 the delays of all configurations with a given
  multiplier and cap are nondecreasing and between initial and maximal delay if and only if the cap times the multiplier
  is an int64, or overflows to at least the cap, and for multiplier 1 the cap is at most 2^53 (`Backoff.ShapeIff`).
- The comment in SubscribeWith promises one goroutine for each consumer.Chan(). After a cleanup has emptied the registry,
  a call that had passed its check before starts a second one (`Leaks.TwoDrainers`). Its registry section does so if and
  only if a loop that can still receive from the consumer runs without an entry (`Leaks.SecondDrainerIff`), and never
  before closed is set (`Leaks.OneDrainerUntilClosed`).

### Assumptions

- recvWG is an atomic counter and Wait can return whenever it is zero; Go's checks on misuse of a WaitGroup are not
  modelled.
- The client library returns a new object from every call, and Ack and Nack do not panic.
- Startup does not run concurrently with anything else, and handlers do not call cleanup.
- The protocol starts from distinct configured names, none of which begins with `regex:`.

## Model

| member | source | states |
|---|---|---|
| Safety.NoUseAfterClose | pulsar.go:182-233 | in every interleaving no handler call, Ack or Nack is pending or running on a closed consumer, and none at all once some cleanup's Wait has returned; until then no loop even holds a closed consumer |
| Safety.SingleDrainer | consumer.go:34-67 | until closed is set the registry is exactly the set of registered loops, one a name; in every state no two loops dispatch under one name or from one consumer |
| Safety.LockDiscipline | pulsar.go:186-233 | no thread holds two mutexes, no two threads hold the same one, and none is held during Wait, a handler, or a library call made by a subscribe, Unsubscribe, Close or sending caller |
| Safety.MessageConservation | consumer.go:68-83 | for every loop the messages taken are the acked, nacked and dropped ones and the one in hand, as multisets; at most one is dropped and only when closed; distinct deliveries are never both acked and nacked |
| Safety.CounterAgreement | consumer.go:191-237 | at rest consumerReceived is the number of Acks and consumerFailed the number of Nacks plus the number of handler panics |
| Safety.HandleOwnership | producer.go:133-145 | no handle is closed or unsubscribed twice, whoever races for it; a handle made by startup is always in its map, owned by exactly one caller, or ended, and a regex handle is in one of these places or lost once |
| Safety.QuiescentShutdown | pulsar.go:566-597 | when a cleanup and every call and loop have ended, maps and registry are empty, recvWG is zero, the client was closed once and every startup handle was ended exactly once |
| Safety.WaitWindow | consumer.go:50-54 | when Wait can return, whatever is still in the registry, and every regex consumer still in the map, belongs to a loop that is inserted and not yet counted |
| Safety.ClientGoneIff | consumer.go:97-105 | in every reachable state the client is gone if and only if some cleanup has finished, and then its Wait has returned and closed is set |
| Safety.SendOnClosedIff | producer.go:92-107 | the producer that a sending call is about to use was made by startup, and is closed if and only if it has left the map and no Close call still has it in hand |
| Safety.ReachedInv | pulsar.go:32-61 | every state that any run reaches from a started plugin satisfies the invariant that joins locks, flags, wait group, registry, maps, ownership and messages |
| Preservation.MoveKept | consumer.go:23-157 | every step of every thread keeps the whole invariant |
| Preservation.RunKept | consumer.go:23-157 | every run of calls, steps and cancellations keeps the whole invariant |
| Preservation.SubscriptionsKept | consumer.go:43-67 | inserts, exits and the drain keep registry entries backed by loops and dispatching loops apart, although exits delete by name |
| Preservation.ClosesKept | pulsar.go:207-215 | no step puts a consumer that a loop is dispatching from among the closed ones |
| Preservation.TokensKept | consumer.go:112-138 | no step duplicates or forgets a handle: places plus endings stay at one |
| Preservation.BalanceKept | consumer.go:191-204 | taking a message or settling the one in hand in one way keeps the message balance |
| Effects.StepEffects | consumer.go:50-84 | what any step can do to locks, flags, counters, registry, maps and handles |
| Effects.LoopCounts | consumer.go:191-237 | a loop step changes recvWG and the two counters exactly by the change in what the loop itself accounts for |
| Shutdown.DeadlockFree | pulsar.go:186-233 | in every reachable state with an unfinished call or loop that is not just waiting for messages, some thread can step without a message or a library event |
| Shutdown.ShutdownBound | pulsar.go:574-593 | once closed is set, every run takes at most a fixed number of steps plus what each later call brings, and each call takes at most one more message and starts at most one more handler call |
| Shutdown.StuckMeansQuiescent | pulsar.go:566-597 | once closed is set, a reachable state in which nobody can step is a completed shutdown |
| Shutdown.ShutdownCompletes | pulsar.go:566-597 | from every reachable closed state shutdown can be completed within the bound, without new calls or messages |
| Leaks.UnsubscribeHandlerIff | consumer.go:174-187 | in every reachable state: after Unsubscribe has taken a consumer out, a handler can run on it in some continuation after its Unsubscribe call if and only if a loop on it is dispatching, or is before its isClosed check while closed is unset and the state mutex free |
| Leaks.UnsubscribeIsFinal | consumer.go:174-187 | before closed is set and without a subscription of that name, no dispatch on the consumer happens in any continuation |
| Withdrawal.WithdrawnForever | consumer.go:34-52 | a handle that has left its map and is in no regex caller's hands is never given to a loop again, and once no loop on it can get to a handler call, or to a receive, no continuation changes that |
| Leaks.LoopOfName | consumer.go:34-52 | before shutdown the loop registered under a consumer's name works on that consumer |
| Leaks.HandlerAfterUnsubscribe | consumer.go:174-187 | for every configured consumer a run with a handler running on it after its Unsubscribe call |
| Leaks.LossIff | consumer.go:122-138 | in every reachable state a step loses a handle if and only if the map holds it and the step is the exit section of a regex loop of its name or the insert of a regex call that finds the name unregistered; a lost handle is a regex consumer and was never closed or unsubscribed |
| Leaks.LossBeforeShutdownIff | consumer.go:130-138 | before closed is set a step loses a consumer if and only if it is the exit section of that consumer's own regex loop and no Unsubscribe call has taken the consumer |
| Leaks.SecondDrainerIff | consumer.go:40-52 | in every reachable state the registry section of a SubscribeWith call starts a second loop beside one that can still receive from the consumer if and only if there is such a loop and its name has no entry, which needs closed to be set |
| Leaks.OneDrainerUntilClosed | consumer.go:40-52 | until closed is set no two loops can receive from one consumer |
| Leaks.TwoDrainers | consumer.go:40-52 | for every configured consumer a run in which two loops have each taken a message from it |
| Leaks.RegexConsumerLost | consumer.go:130-138 | a run from every started plugin after which a regex consumer is in no map and in nobody's hands without having been closed |
| Leaks.BothConsumersLost | consumer.go:116-138 | a run from every started plugin in which an insert after the drain overwrites the consumer of a running loop, and that loop's exit deletes the newcomer's consumer, so both are lost |
| Leaks.ReceiveAfterClose | pulsar.go:182-198 | for every configured consumer a run in which a loop takes a message from it after a cleanup has closed it |
| Leaks.ReceiveFromClosedIff | pulsar.go:182-215 | in every reachable state a loop can still receive from a closed consumer if and only if a loop on it is not yet counted or in its select |
| Leaks.CloseStepReceiveIff | pulsar.go:207-215 | the step that closes the consumers leaves a later receive from one of them possible if and only if a loop on it is at that moment not yet counted or in its select |
| Leaks.UseAfterClose | consumer.go:97-105 | from every reachable state with a regex call about to dial, or a sending call about to send, some continuation closes the client, or the producer, before the call moves |
| Leaks.SendAfterClose | producer.go:92-107 | for every producer of every started plugin a run in which a sending call is about to send to it after a Close call has closed it |
| Calls.RefusedForever | consumer.go:30-32 | once closed is set, a subscribe call that has not passed its isClosed check yet is still there or has returned in every continuation: it never holds consumerMutex, owns a consumer or starts a loop |
| Calls.LateCallRefused | consumer.go:94-96 | the same for every SubscribeWith and SubscribeWithRegex call that arrives after closed is set |
| Calls.CheckIff | consumer.go:30-32 | the check turns a call away if and only if closed is set; otherwise the call goes on to the registry or to the client |
| Calls.DialIff | consumer.go:97-108 | a regex call dials if and only if the client is there, and owns a new consumer of its own if and only if the library reports no error |
| Calls.RejectedIsClosed | consumer.go:116-121 | in every reachable state the consumer of a rejected regex call has been closed exactly once, never unsubscribed, and is in no map |
| Calls.LeavesIff | consumer.go:68-83 | a loop starts to leave if and only if its select takes the closed close channel, its cancelled context or the end of the consumer channel, or it finds closed set after a receive |
| Calls.SelectIff | consumer.go:68-83 | when a select can take the close channel, the context, the end of the channel and a message |
| Calls.CancelReaches | consumer.go:50-77 | after the caller has cancelled its context the loop can leave from its select in every continuation |
| Calls.EndedAreCancelled | consumer.go:54-66 | in every reachable state every loop that has ended and every rejected regex call has cancelled its context |
| Calls.CleanupStarts | pulsar.go:568-576 | a cleanup with a cancelled context changes nothing, any other closes the close channel first |
| Calls.DrainedAreCancelled | pulsar.go:186-198 | every loop that was in the registry when a cleanup emptied it is cancelled in every continuation in which the cleanup has gone on, so before it waits |
| Calls.SendIff | producer.go:73-107 | a sending call goes to the library if and only if its producer is there, and to the next message if and only if the last went well; it changes no shared data |
| Calls.ReadersWait | pulsar.go:169-180 | the flag, the client and a producer are looked up exactly when no writer holds their mutex |
| Lifecycle.StartAndCleanUp | pulsar.go:691-709 | a cleanup after a successful startup closes the last handle of each name once and the overwritten ones never, so all of them if and only if no enabled name occurs twice |
| Lifecycle.StartEndAndCleanUp | pulsar.go:204-233 | with distinct names, a startup, any Unsubscribe and Close calls and a cleanup end every created handle exactly once |
| Made.AllClosedIff | pulsar.go:760-762 | when the last handle under each name is closed once and no other, all are closed if and only if no name was created twice |
| Lifecycle.StartupKeys | pulsar.go:942-962 | a successful startup registers exactly the enabled names, those of `Made.EnabledPicked` |
| Lifecycle.StartupReachesProtocol | pulsar.go:454-489 | with distinct names a successful startup leaves a start state of the protocol with every created handle accounted for |
| Lifecycle.StartNew | pulsar.go:63-86 | a new plugin is ready if and only if nothing goes wrong on the way; then its producers and its consumers are under exactly the names of the enabled entries of the two lists, and with distinct names it is a start state of the protocol |
| Lifecycle.CleanupSettles | pulsar.go:566-597 | a cleanup closes each producer once and each consumer once unless a regex loop of its name is among those it waits for, whose consumer it loses; a second cleanup changes nothing |
| Lifecycle.UninterruptedCleanup | pulsar.go:566-597 | from every reachable state in which all calls and loops have ended, a cleanup can run through, and its steps add up to the sequential cleanup |
| Meaning.RegisterNamedMeans | consumer.go:34-52 | SubscribeWith is accepted exactly when the consumer is there and nobody drains it, gets that consumer, adds its own entry and changes nothing else; the exit section takes it back exactly |
| Meaning.RegisterRegexMeans | consumer.go:112-124 | SubscribeWithRegex is refused exactly when somebody drains the name; otherwise the new consumer has one place, no other entry changes, and no other handle is forgotten |
| Meaning.ExitMeans | consumer.go:130-138 | the deferred section frees the name, a regex loop also takes away the consumer under it, no other name is affected and no handle duplicated or forgotten |
| Client.PulsarClient.ReceiveLoop | consumer.go:68-83 | works through the messages before the first other pick in order, one Ack or Nack each with the counters to match, and ends; when closed it drops the first message |
| Client.PulsarClient.SubscribeWith | consumer.go:23-86 | says which call is turned away, leaving everything unchanged; a loop that has come and gone leaves registry, maps and wait group as they were |
| Client.PulsarClient.SubscribeWithRegex | consumer.go:90-157 | says which call is turned away, leaving messages and counters alone, and that a duplicate closes its own consumer; its loop works through the messages before the first other pick in order, one Ack or Nack each with the counters to match, and ends exactly then; a consumer whose loop has come and gone is in no map, neither closed nor unsubscribed, and no other handle is forgotten |
| Client.PulsarClient.Unsubscribe | consumer.go:175-187 | afterwards nothing is under the name; the consumer that was, and no other, has been unsubscribed once more; nothing else changes and every handle is accounted for; without one nothing happens |
| Client.PulsarClient.CloseProducer | producer.go:133-145 | afterwards nothing is under the name; the producer that was, and no other, has been closed once more; nothing else changes and every handle is accounted for; without one nothing happens |
| Client.PulsarClient.InvokeHandler | consumer.go:208-238 | the counter changes for success, error and panic, and whether an error is returned |
| Client.PulsarClient.DispatchMessage | consumer.go:191-204 | one Ack of this message on this consumer after success, one Nack of it after an error or panic, and the counter changes |
| Client.PulsarClient.TakeCancels | pulsar.go:187-193 | empties the registry and returns the cancel function of every entry, one each |
| Client.PulsarClient.AwaitLoops | pulsar.go:198 | returns when every counted loop has left; the jobs that they had in hand, in order, have been acked if they end well and nacked if not, with the counters to match and a panic counted twice; wait group at zero |
| Client.PulsarClient.StopReceivers | pulsar.go:186-199 | empties the registry, cancels every loop that was in it and waits for the counted ones, whose jobs in hand are all acked or nacked; no handle is duplicated or forgotten, and only consumers of regex loops that leave go |
| Client.PulsarClient.CloseEach | pulsar.go:207-214 | closes every live handle of a map exactly once, in any iteration order |
| Client.PulsarClient.CloseAllResources | pulsar.go:204-233 | afterwards nothing is open or registered, no loop is counted, every loop that was registered is cancelled, every job in hand is acked or nacked, and every handle is accounted for |
| Client.PulsarClient.CleanupWithContext | pulsar.go:566-597 | a cancelled context changes nothing; otherwise both flags are set, nothing is open or registered, no loop is counted, every loop that was registered is cancelled, every job in hand is acked or nacked in order, and every handle is accounted for |
| Client.PulsarClient.Startup | pulsar.go:454-503 | which answer and how many handles for every outcome of context, library and runtime: nothing started, everything enabled open under its name, refused by the runtime without rollback, or rolled back, and then every handle created so far is closed exactly once if and only if none of their names came twice |
| Client.PulsarClient.RollBack | pulsar.go:469-489 | after a failed startup the maps are empty, the client is closed once, and exactly the handles whose name no later one took are closed, once each |
| Client.PulsarClient.InitializeProducers | pulsar.go:692-699 | creates the enabled producers in order up to the first failure, one handle each |
| Client.PulsarClient.InitializeConsumers | pulsar.go:702-709 | creates the enabled consumers in order up to the first failure, one handle each |
| Made.MapOfHolds | pulsar.go:760-762 | a map filled by creation holds, under each name, the last handle made for it and nothing else |
| Client.GetEnabled | pulsar.go:943-962 | the names at an increasing sequence of positions that covers exactly the enabled entries: each enabled entry once, in list order, and no other |
| Made.EnabledPicked | pulsar.go:943-951 | the enabled names that the startup theorems speak of are the names at exactly the enabled positions, in order |
| Made.EnabledSet | pulsar.go:943-962 | as a set they are the names of the entries with the enabled flag |
| Backoff.RetryManager.GetRetryDelay | managers.go:206-221 | for any multiplication: the iterate of the first round above the cap replaced by the cap, or the last iterate; and the course of the loop that the theorems below are about |
| Float64.RoundNearest | managers.go:213 | a float64 product is a nearest float: rounding yields a float and no float is nearer |
| Float64.RoundTies | managers.go:213 | half way between two neighbouring floats the even one is taken |
| Backoff.GrowsIff | managers.go:213 | for a float32 multiplier of at least 1: multiplying in float64 and converting to int64 shrinks no delay up to the cap if and only if the cap times the multiplier is an int64 or overflows to at least the cap, and for multiplier 1 the cap is at most 2^53 |
| Backoff.ShapeIff | managers.go:204-221 | for a float32 multiplier of at least 1 and a cap: the delays of every accepted configuration with these two are nondecreasing in the attempt and between initial and maximal delay if and only if that condition holds |
| Backoff.GrowsShape | managers.go:206-221 | the same shape for any multiplication that shrinks no delay up to the cap |
| Backoff.ClosedForm | managers.go:211-218 | under that condition the delay is the minimum of the cap and the multiplications of all rounds, so leaving the loop early loses nothing |
| Overflow.NegativeDelayIff | managers.go:213-218 | when an overflow yields a negative number: an accepted configuration has a negative delay if and only if the first iterate above its cap is no int64 |
| Overflow.OverflowWithIff | managers.go:213-218 | some accepted configuration with a given multiplier and cap overflows if and only if the cap times the multiplier is no int64 |
| Overflow.NegativeStays | managers.go:211-218 | once negative, the delay of every later attempt is, and the loop is never left early |
| Overflow.NegativeDelay | managers.go:206-221 | one second, capped at one second, times 10^10 is accepted and has a negative delay from the first retry on |
| Overflow.NoNumber | managers.go:213-218 | when no product is an int64, as for an infinite or NaN multiplier, every retry has the overflow value, or the cap if that is less |
| Schedule.DelayShrinks | managers.go:206-221 | float32 multiplier below 1: nonincreasing, never capped, zero from attempt number initialDelay on |
| Schedule.RoundsBound | managers.go:211-218 | multiplier at least 2 and no overflow to a value within the cap: at most k rounds when 2^k times the rounded initial delay exceeds the cap, for every attempt |
| Schedule.IntegerDelay | managers.go:206-221 | whole multiplier m, cap at most 2^53 ns, no overflow below the cap: exactly the minimum of the cap and initialDelay * m^attempt |
| Schedule.TruncationBound | managers.go:211-213 | the uncapped delay, rounded and truncated in every round, is at most initialDelay * h^n and less than 1 + l + ... + l^(n-1) below initialDelay * l^n, where l and h are the multiplier less or more 2^-53, twice |
| Schedule.IdealIsPower | managers.go:211-213 | these powers are initialDelay * m^n |
| Schedule.LossIsGeometric | managers.go:211-213 | the loss is 1 + m + ... + m^(n-1) |
| Schedule.AcceptedAttempts | managers.go:195-202 | the accepted attempts are a prefix; the delays of n attempts add up to at most n, hence MaxAttempts, times MaxDelay, and to no negative number unless an overflow turns negative |
| Schedule.GeometricTotal | managers.go:206-221 | whole multiplier m > 1, cap at most 2^53 ns, no overflow below the cap: the delays of n attempts add up to at most initialDelay * (m^n - 1) / (m - 1) |
| Config.Normalize | pulsar.go:285-446 | succeeds exactly on the acceptable configurations, and then every field is, one by one, what it was if that is in range, the listed value if it is not, and unchanged if normalisation does not set it, with the listed sections where there was none; also when an object occurs twice in a list; otherwise names the first part at fault |
| Config.NormalizeProducers | pulsar.go:344-380 | processes the list in place, or stops at the first bad producer |
| Config.NormalizeConsumers | pulsar.go:382-418 | processes the list in place, or stops at the first bad consumer |
| Config.NormalizeRetry | pulsar.go:310-331 | rejects exactly a maximal delay below the initial one, both after defaulting, or a negative jitter; otherwise each field keeps its value if it is in range and gets the listed one if not, enable and jitter are kept, and an absent section becomes the listed one |
| Config.NormSets | pulsar.go:285-446 | the normal form of an acceptable configuration, field by field with the values written out: in range is kept, out of range becomes the listed value, what normalisation does not set is unchanged |
| Config.ValidateAuth | pulsar.go:420-443 | accepts exactly no type, a token, complete OAuth2 credentials, or a certificate with its key |
| Configure.NormFixedIff | pulsar.go:285-446 | normalisation changes nothing if and only if every section is present and every field in range |
| Configure.NormInRange | pulsar.go:285-446 | after normalisation every section is present and every defaulted field in range |
| Configure.NormIdempotent | pulsar.go:285-446 | normalising twice is normalising once, and acceptance does not change |
| Configure.AcceptedRetryNormalised | pulsar.go:313-327 | the retry section of an accepted configuration has the ranges that the schedule theorems need |
| Configure.Plugin.Configure | pulsar.go:237-250 | all or nothing: an error keeps the stored configuration, success stores a fresh object whose fields are those of the argument with each one out of range replaced by its listed value, and the caller's object keeps its values in both cases |
| Configure.Clone | pulsar.go:150-159 | a deep copy with equal values that shares no object |
| Configure.ValidationCoversUse | pulsar.go:658-686 | an accepted configuration yields an authentication if and only if one was asked for, and validation holds exactly when a complete one comes out |
| Configure.CredentialsCopied | pulsar.go:659-686 | the token, the issuer, client id and secret, or the certificate and key arrive each in its own place |
| Produce.Sender.ProduceBatch | producer.go:73-89 | sends an in-order prefix with one attempt a message: everything, or up to and including the first failure, with the counters to match |
| Produce.Sender.ProduceWith | producer.go:92-115 | one attempt if the producer exists, and the counters account for it |
| StopOnce.HealthStopOnce | managers.go:40-53 | under any number of concurrent Stops the channel is closed at most once, and when any of them returns it is closed and stopped is set |
| StopOnce.HealthStopsEnd | managers.go:40-53 | as long as a Stop has not returned some Stop can step, and every step brings its own nearer to the end and holds up no other |
| StopOnce.ConnStopOnce | managers.go:131-148 | under any number of concurrent Stops the channel is closed at most once; once one has returned, stopped is set, connected is not, and the channel is closed if and only if no Stop is on its way to the close |
| StopOnce.ConnReturnsEarly | managers.go:131-148 | a run in which a Stop has returned while the channel is open |
| StopOnce.ConnStopsEnd | managers.go:131-148 | no Stop ever waits for another, and every step brings it nearer to its end |

## Left out

- The broker, the client library and networking: handles are identities with a ledger, and every library result is a free choice.
- Handler arguments that are nil return an error before any shared data is touched, and are not modelled.
- Get, Is-ready and default-name lookups, health and metrics snapshots: reads of one field or map entry.
- What the library answers to a call on a client or producer that has been closed: a free choice.
- The Send calls of a batch share the producer that the batch looked up: a thread that has it in hand stands for all of them.
- The body of one map iteration that closes consumers under the mutex is one step of the protocol; the state in which the closing is under way is a state of its own, and `Safety.NoUseAfterClose` covers it.
- RetryRecord bookkeeping, JitterFactor beyond its sign check, latency, logging, Prometheus registration, the health ticker and publishing to the runtime.
- The option copying in createProducer and createConsumer and the string switches that map option names: each is settled by one branch.
- CheckHealth at the end of startup: with the client open and the connection manager just started it cannot fail in a sequential startup.
- Backoff.RetryManager.GetRetryDelay: the multiplier of a configuration is a finite number; for NaN and infinite ones there is only `Overflow.NoNumber`. The float64 has unbounded exponents here, which the products of int64 delays and float32 multipliers do not exceed.
- Client.PulsarClient.AwaitLoops: the loops that leave while it waits, in their order and with the jobs they finish, are an argument; other calls that arrive during the wait are in the protocol.
- Client.PulsarClient.SubscribeWith: one call and its loop with nobody else on the plugin; the interleavings are in the protocol.
- Config.Normalize: sections and option messages are values of the object that holds them, so two configurations, or two producers, that share one section or option object are not captured; which of several checks on one producer or consumer fails first is not distinguished.
- Configuration fields that normalisation neither checks nor sets.
- Produce.Sender.ProduceBatch: the asynchronous path is not modelled; its two counter updates are those of the synchronous one.
