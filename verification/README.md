# Webhook proxy: a verified model of the queue

The program receives webhooks over HTTP, stores them in one SQLite table and gets them to
their targets: a background forwarder per channel sends the oldest due webhook, deletes it
when the target answers with the expected status and parks it with an exponential delay
otherwise. Clients may instead poll webhooks destructively, and operators may pause a
channel, retry one webhook by hand, delete one or clear a queue. All of these interleave.

This project models that behaviour in Dafny and proves what it is relied on for. `dafny
verify dfyconfig.toml` checks everything.

## How the model is built

* **The queue protocol** (`Webhooks`, `Protocol`). The table is a map from id to row with a
  high-water id. Every database call is one atomic action that takes effect or fails and
  changes nothing; the HTTP send lies between actions, so what an actor holds in flight goes
  stale. Receives, forwarders, manual retries, polls, the operator, the clock and restarts of
  the process are actions; a run is any enabled sequence of them. The state carries a log
  (what was received, what left the table and why, counts of deliveries, failed deletes,
  recorded failures and stuck reports) that no action reads.
* **What runs guarantee** (`Invariant`, `Guarantees`, `StuckReport`, `Draining`, `Spacing`,
  `Fairness`, and `HeadOfLine` with `Picks`, `Blockades` and `Rotation`). One inductive
  invariant, then statements over every run.
* **The code** (`Process`, `Forwarding`, `Preview`, `Routes`, `Receive`, `Requests`, `Startup`). The adapter, the
  shared channel statuses, the forwarder's loop and the HTTP handlers are written as classes
  and methods in the form of the source, configured as `Startup` does it. Each takes the matching actions of the protocol as it
  changes the real state; at every await point the others may take any steps. So whatever the
  code does is a run of the protocol and has its guarantees (`Routes.CodeConservesWebhooks`).
* **What it stands on**: the delay arithmetic (`Backoff`, `RetryAfter`), validation and
  look-ups of the configuration (`Configuration`, `Schedules`), the retry loop around every
  statement (`LockRetry`), which is why a call may be taken as one atomic action, the rolling
  migration of the table (`Migration`), and header names (`Headers`).

Choices made throughout:

* `f64` is `real`, a `Duration` a non-negative number of seconds, `as_secs` the floor; the
  ranges of `u64` and `i64`, where they matter, are explicit.
* The target's answer, the jitter, ties on `received_at`, the order of `RETURNING`, new ids
  and the order of hash maps are the environment's choice.
* HMAC, the template engine, JSON parsing and matching of allow-list entries are functions
  or answers passed in.
* `Fairness` is stated for windows in which records, deletes and request building succeed and
  nobody retries the webhook by hand, `Spacing.RejectedRate` counts the forwarder's sends, and
  the lower bound of `StuckReport` excludes manual retries: a failed record or a retry by hand
  really lets a webhook be sent again at once, and only the forwarder reports.
* What enters and leaves (rows stored, statuses answered, requests sent, times a webhook is due)
  is specified in the configuration's own fields and in numbers, not through the helper
  functions of the code, which are shown to agree with that.
* Ids and tasks are natural numbers. Every lemma switches automatic induction off, so that
  each proof is what its body says.

Where the code and its documentation differ, the model follows the code.

*Later webhooks are held up.* `docs/CONFIG.md` (lines 128-129) and `docs/FAQ.md` (line 29)
promise that a webhook the target keeps rejecting does not hold up the ones behind it. A
webhook is passed over only while its delay lasts, so a few of them hold up all others when
each has waited out its delay by the time its turn comes again. `HeadOfLine` says exactly
when, for passes `gap` seconds apart, of which at most f come to nothing (a failure is not
recorded, a request cannot be built, or the process dies), with nobody retrying a blocking
webhook by hand. The least delay of failure a is the ceiling if the target only rejects, 0
if it may ask for a delay, and floor((1 - j) * min(max, base * m^min(a - 1, 64))) for any
failures without a requested delay, rejections among them.

* One webhook can take n passes in a row while a younger one is due exactly if n <= 1 + f or
  the least delay of failure n - 1 - f is at most `gap` (`BlocksIff`). So each pass that comes
  to nothing gives it one more pass, whatever the schedule.
* k webhooks that are only rejected, every failure recorded, can take n passes exactly if
  n <= k or max <= k * gap (`RejectionsBlockIff`).
* k webhooks can take any number of passes, for any fixed f, exactly if the least delay of the
  65th failure, where the schedule stops growing, is at most k * gap (`BlocksForeverIff`). At
  the defaults and an interval of 30 seconds that takes 120 rejected webhooks, or 96 failing in
  any way without a requested delay (`DefaultsStarveIff`); with multiplier 1, which validation
  accepts, one suffices (`FixedIntervalBlocksForever`).

Within windows shorter than the delays assigned in them the promise holds
(`Fairness.BoundedBypass`, `Fairness.ServedInTime`).

*An answer can end the process.* The forwarder records every unexpected answer as a failure
except one whose body is longer than 512 bytes and has no character ending with byte 512: the
preview cuts the text there, which panics (`Preview.PreviewIsExact`), and the release profile
aborts on panic. Nothing is recorded, so after the restart the same webhook is due again; this
is one of the passes that come to nothing above. The manual retry stores the whole body and has
no such cut.

The due time `now_unix() + delay.as_secs() as i64` is an unchecked `i64` sum in the release
profile, and the model wraps it. Validation does not bound the ceiling, so statements on
spacing say until when clock and ceiling together fit (`Protocol.FitsUntil`,
`Schedules.Deployable`), and `Backoff.NeverParkedInThePastIff` shows that they fail beyond.

## Model

| member | source | states |
|---|---|---|
| `Guarantees.Conservation` | src/bin/kwp/background/forward.rs:159-257 | in every interleaving a webhook is in the log exactly if it was answered 200, and is then stored unchanged or was taken out by one delivery, poll, clear or discard that the run holds |
| `Guarantees.DuplicateBound` | src/bin/kwp/background/forward.rs:323-355 | deliveries of a webhook are at most 1 + the forwarder's failed deletes + restarts + manual retries |
| `Guarantees.DuplicateBoundIsReached` | src/bin/kwp/background/forward.rs:332-352 | for every n a run with n failed deletes delivers n + 1 times |
| `Guarantees.StaleWritesAreSafe` | src/lib/outbound/sqlite/webhook.rs:195-232 | a delete or record issued after a send touches only the webhook that was sent, or nothing, whatever ran meanwhile |
| `Guarantees.IdsAreNeverReused` | src/lib/outbound/sqlite/init.rs:145-151 | later receives get larger ids, also after deletes |
| `Guarantees.NoWebhookIsPolledTwice` | src/lib/outbound/sqlite/webhook.rs:105-142 | two polls anywhere in a run return disjoint webhooks |
| `Guarantees.LogStays` | src/lib/outbound/sqlite/webhook.rs:195-232 | content never changes, and what has left the table never comes back |
| `Guarantees.RowsKeepTheirShape` | src/lib/outbound/sqlite/webhook.rs:207-232 | `forward_attempts` counts the recorded failures; the other columns are set exactly from the first on; no answer parks a webhook beyond last attempt + ceiling |
| `Guarantees.ForwarderIsNeverStuck` | src/bin/kwp/background/forward.rs:89-107 | no interleaving deadlocks a forwarder: after every run it has an enabled step; that an answer ends the process is a restart in such a run |
| `Invariant.InitialInv` | src/lib/outbound/sqlite/init.rs:141-160 | an empty table and idle actors satisfy the invariant |
| `Invariant.StepKeepsInv` | src/bin/kwp/background/forward.rs:159-257 | every action of every actor keeps the invariant on rows, flights, causes, deliveries, bookkeeping, loops and tasks |
| `Invariant.RunKeepsInv` | src/bin/kwp/background/forward.rs:89-107 | so does every run |
| `Invariant.FlightOfOthers` | src/bin/kwp/route/queue.rs:620-667 | nobody but the actor itself, or a restart, changes what it has in flight |
| `StuckReport.ReportedOnce` | src/bin/kwp/background/forward.rs:359-404 | stuck reports of a webhook are at most 1 + failed records, none before nine failures are recorded, and at least one after ten recorded failures without a manual retry |
| `Draining.PauseStopsSending` | src/bin/kwp/background/forward.rs:89-119 | while a channel stays paused at most one more send starts and one more answer arrives, none if the pass was not past its check |
| `Draining.DrainingTerminates` | src/bin/kwp/background/forward.rs:100-105 | without receives, passes that end drained are no more than the rows there were to take |
| `Draining.NoResendWithoutSleep` | src/bin/kwp/background/forward.rs:347-352 | between two sends of one webhook the forwarder has slept, also after a failed delete |
| `Spacing.AttemptsAreSpaced` | src/bin/kwp/background/forward.rs:359-386 | between a refusal and the pass that next sends the webhook lies at least the delay assigned for that attempt |
| `Spacing.RejectedRate` | src/lib/domain/webhook/backoff.rs:143-147 | n sends of a webhook the target only rejects take at least n - 1 ceilings |
| `Fairness.NoSecondAttempt` | src/lib/outbound/sqlite/webhook.rs:144-170 | within a window shorter than the delays assigned in it no webhook is attempted twice |
| `Fairness.BoundedBypass` | src/bin/kwp/background/forward.rs:89-107 | in such a window a due webhook with k rivals of no later `received_at` is attempted within k + 1 passes or taken out before |
| `Fairness.RejectionsCannotStarve` | src/lib/domain/webhook/backoff.rs:129-150 | rejected webhooks cannot keep a fresh one waiting longer than one pass each, as long as these passes take less than a ceiling |
| `Fairness.PacedRejectionsCannotStarve` | src/bin/kwp/background/forward.rs:89-107 | with a pass at least every p seconds (interval and request timeout) and (k + 1) * p < max, a due webhook with k rivals is attempted, or taken out, by k + 1 passes |
| `Fairness.ServedInTime` | src/bin/kwp/background/forward.rs:89-107 | so in any run that lasts longer than (k + 1) * p |
| `HeadOfLine.BlocksIff` | docs/CONFIG.md:128-129 | from an empty table, in some interleaving without manual retries of it, one failing webhook takes n passes in a row, `gap` seconds apart and at most f of them coming to nothing, while a younger one is due, exactly if n <= 1 + f or the least delay of its failure n - 1 - f is at most `gap`; for rejections, for failures without a requested delay and for any failures |
| `HeadOfLine.RejectionsBlockIff` | docs/CONFIG.md:128-129 | k rejected webhooks, all of whose failures are recorded, can take n passes in a row exactly if n <= k or max <= k * gap |
| `HeadOfLine.BlocksForeverIff` | docs/FAQ.md:29-29 | k failing webhooks can take any number of passes, at most f of them coming to nothing, exactly if the least delay of the 65th failure is at most k * gap |
| `HeadOfLine.DefaultsStarveIff` | src/lib/domain/config/model.rs:39-51 | at the defaults, an interval of 30 s and passes 30 s apart they can exactly if there are 120 of them (rejected), 96 (failing without a requested delay) or any (otherwise) |
| `HeadOfLine.FixedIntervalBlocksForever` | src/lib/domain/webhook/backoff.rs:80-91 | with multiplier 1 a single one can at the forwarder's own interval |
| `Rotation.LingeringBlocks` | src/bin/kwp/background/forward.rs:89-107 | any answers to k webhooks of one second whose delays have passed a round later block for n passes, after passes that came to nothing by lost records or by deaths of the process |
| `Blockades.PicksInOrder` | src/lib/outbound/sqlite/webhook.rs:144-170 | in every interleaving of a blockade each pass picks a webhook whose last recorded failure lies at least its least delay back, and at most f picks before the last are unrecorded |
| `Picks.FewPasses` | src/lib/outbound/sqlite/webhook.rs:144-170 | if all delays from failure r on outlast a round of k webhooks, such an order has at most k * (1 + f + k * (r - 1)) picks |
| `Webhooks.PeekIsTotal` | src/lib/outbound/sqlite/webhook.rs:144-170 | a peek finds an oldest due row exactly if some row is due |
| `Webhooks.OldestBatchExists` | src/lib/outbound/sqlite/webhook.rs:105-142 | a batch of the oldest rows exists for every table and limit |
| `Webhooks.PollsConserve` | src/lib/outbound/sqlite/webhook.rs:105-142 | what polls returned and what they left make up what was there; nothing else is touched |
| `Webhooks.PollsAreDisjoint` | src/lib/outbound/sqlite/webhook.rs:105-142 | no id is returned by two polls |
| `Webhooks.PollsDrain` | src/lib/outbound/sqlite/webhook.rs:105-142 | polling until an answer comes back short returns every row |
| `Webhooks.ListingExists` | src/lib/outbound/sqlite/webhook.rs:250-271 | every set of rows can be listed once each, oldest first |
| `Webhooks.NextDueIsEarliest` | src/bin/kwp/route/queue.rs:161-169 | the reported time is the least due time, and absent exactly if the queue is empty or some row has none |
| `Webhooks.QueueSummaryAgrees` | src/bin/kwp/route/queue.rs:161-169 | a reported time t means a peek finds a row exactly from t on; none means empty or always due |
| `Backoff.WaitsForCeilingIff` | src/lib/domain/webhook/backoff.rs:50-61 | refusals with a status wait for the whole ceiling, whatever their number and the jitter, exactly if it is a 4xx other than 408 and 429, or the schedule cannot grow and has no jitter |
| `Backoff.DelayLaw` | src/lib/domain/webhook/backoff.rs:80-91 | never panics; base at the first failure, never decreasing, at most the ceiling, constant from attempt 65 |
| `Backoff.EachFailureMultiplies` | src/lib/domain/webhook/backoff.rs:80-91 | the delay starts at the interval, each further failure multiplies it up to the ceiling, and it stays from the 65th on |
| `Backoff.CeilingReachedIff` | src/lib/domain/webhook/backoff.rs:80-91 | the ceiling is ever reached exactly if base times multiplier^64 gets there |
| `Backoff.DoublingReachesCeiling` | src/lib/domain/webhook/backoff.rs:80-91 | it is, by attempt 65, for every multiplier of at least two |
| `Backoff.JitterBand` | src/lib/domain/webhook/backoff.rs:95-108 | jitter keeps a delay between (1 - j) and (1 + j) times itself and under the ceiling |
| `Backoff.JitterIsEven` | src/lib/domain/webhook/backoff.rs:95-108 | the unit u moves it evenly through the band, to (1 - j + 2ju) times itself at most the ceiling, and counts as the nearer end outside [0, 1] |
| `Backoff.DelayEnvelope` | src/lib/domain/webhook/backoff.rs:129-150 | every delay is at most the ceiling; requested, rejected and transient delays are what each branch promises |
| `Backoff.PanicFreeIff` | src/lib/domain/webhook/backoff.rs:95-108 | `next_delay` panics for no arguments, the unit any `f64`, exactly if the largest delay with the widest jitter fits a `Duration`; the unit of its callers stays below the 1.0 that is worst |
| `Backoff.NeverParkedInThePastIff` | src/bin/kwp/background/forward.rs:361-368 | no failure at time `now` is parked before `now` exactly if now + max < 2^63; otherwise the `i64` sum wraps and a rejection is due at once |
| `Backoff.WrapsInTwosComplement` | src/bin/kwp/background/forward.rs:368-368 | the cast and the unchecked sum are two's complement |
| `Backoff.DueAtIsExact` | src/bin/kwp/background/forward.rs:368-368 | the due time is an `i64` and is the sum of clock and delay, or 2^64 less |
| `Schedules.DueByAnswer` | src/bin/kwp/background/forward.rs:200-255 | while clock and ceiling fit: a requested delay r parks for min(r, max), a 4xx other than 408 and 429 for max, and every other failure, a network error included, within the band around the schedule |
| `Backoff.WholeDelayBounds` | src/bin/kwp/background/forward.rs:361-368 | whole-second lower bounds: the ceiling for a rejection, the low end of the band otherwise |
| `Backoff.WaitsLongerIff` | src/lib/domain/webhook/backoff.rs:95-150 | every unrequested delay, of whatever failure, exceeds a gap exactly if the low end of the first one does; a requested zero never does |
| `RetryAfter.ParseIsExact` | src/lib/domain/webhook/backoff.rs:70-74 | a delay is read exactly from digits that stand for a number below 2^64, with spaces or tabs around them and at most a plus sign before them |
| `RetryAfter.RoundTrip` | src/lib/domain/webhook/backoff.rs:70-74 | parsing the decimal form of a number, with any space around it, gives the number back, or nothing if it does not fit |
| `Configuration.ResolveIsExact` | src/lib/domain/config/model.rs:82-91 | the schedule of a channel is the one whose every setting is the channel's own if it has one and the default otherwise, based on the interval |
| `Configuration.ValidationIsExact` | src/lib/domain/config/model.rs:422-493 | start-up accepts exactly the configurations with defaults m >= 1, max >= 1 and 0 <= j <= 1 and, for each forwarding channel, such settings of its own or by default with 1 <= interval <= max |
| `Configuration.BadOverrideIsRefused` | src/lib/domain/config/model.rs:454-461 | an override out of range is refused whatever the defaults |
| `Configuration.TemplateValidationIsExact` | src/lib/domain/config/model.rs:267-332 | passes exactly if every HMAC channel has secret and header, every channel that signs a secret, every sign secret a header, and every template compiles |
| `Configuration.FindsTheFirst` | src/lib/domain/config/model.rs:343-345 | the first channel of a name is found, and one is found if there is any |
| `Configuration.MaxBodyLimitIsExact` | src/lib/domain/config/model.rs:357-364 | the limit in front of all routes passes a size exactly if the default or some channel's own limit does |
| `Startup.SpawnForwarders` | src/bin/kwp/main.rs:98-154 | on a deployable configuration one forwarder is created, in order, for every channel that forwards, with that channel's configuration, with its own retry settings or the defaults in their place, and with exactly the configured ignored headers, all on one table and one set of statuses |
| `Schedules.DeployableIsSafe` | src/lib/domain/config/model.rs:422-493 | what validation accepts meets the hypotheses of the delay laws |
| `Schedules.TargetsServe` | src/lib/domain/config/model.rs:82-91 | the protocol knows exactly the forwarding channels, each with its expected status and with the ceiling and delays of its own settings or the defaults in their place |
| `Schedules.DeployedSchedulesAreBounded` | src/lib/domain/webhook/backoff.rs:129-150 | every deployed schedule meets the hypotheses of the protocol's theorems |
| `Schedules.DeployedSchedulesFit` | src/bin/kwp/background/forward.rs:361-368 | and no due time it computes before the given time overflows |
| `Schedules.DocumentedSpacing` | src/lib/domain/webhook/backoff.rs:80-150 | attempts k and k + 1 are at least floor((1 - j) * min(max, base * m^min(k - 1, 64))) seconds apart |
| `LockRetry.LockErrorsAre` | src/lib/outbound/sqlite/retry.rs:79-95 | an error is retried exactly if the low byte of its code is 5 or 6, and busy exactly then or for a pool timeout |
| `LockRetry.LockCodesAre` | src/lib/outbound/sqlite/retry.rs:84-85 | for every extension e and primary code p below 256, code 256e + p is retried exactly if p is 5 or 6 |
| `LockRetry.BaseDelayDoubles` | src/lib/outbound/sqlite/retry.rs:52-77 | the delay starts at the initial one and doubles up to the cap, sixteen times |
| `LockRetry.BackoffBand` | src/lib/outbound/sqlite/retry.rs:52-77 | every sleep lies between the capped exponential delay and half as much again, moved evenly by the nanoseconds of the clock |
| `LockRetry.DefaultSleepsFitBudget` | src/lib/outbound/sqlite/retry.rs:38-50 | the default delays are 25, 50, 100 and 200 ms, capped at 400; all four sleeps together are at most 0.5625 of the 4 s |
| `LockRetry.Database.Attempt` | src/lib/outbound/sqlite/retry.rs:97-104 | the axiom: one attempt commits once or fails and commits nothing, others commit as they like |
| `LockRetry.RetryOnLocked` | src/lib/outbound/sqlite/retry.rs:119-179 | at most max(1, max_attempts) attempts, only codes with low byte 5 or 6 retried and given back only once attempts or budget are used up, slept at least the delays and less than the budget, back within budget + one attempt, and the statement committed exactly once on success and never on failure |
| `LockRetry.TakesEffectAtOnce` | src/lib/outbound/sqlite/retry.rs:97-104 | a successful call is one step at one point between the commits of others |
| `LockRetry.DefaultLatency` | src/lib/outbound/sqlite/init.rs:53-69 | a call with the default settings takes less than 9 s |
| `LockRetry.InsertThroughRetry` | src/lib/outbound/sqlite/webhook.rs:76-103 | success means one row inserted under a new id, failure none, and busy exactly if the last code has low byte 5 or 6 or the pool timed out |
| `LockRetry.StoreThroughRetry` | src/lib/outbound/sqlite/webhook.rs:85-103 | a receive through the retry loop is the one step of `Routes.StoreWebhook` between the commits of others, within the budget; 503 exactly for these codes and a pool timeout, 500 for other errors |
| `Migration.MigrationIsSafe` | src/lib/outbound/sqlite/init.rs:141-208 | in every interleaving of instances the table only grows, no column comes twice, nobody fails because of others, and a finished instance finds every added column exactly once |
| `Migration.AltersOnlyWhatItMissed` | src/lib/outbound/sqlite/init.rs:162-173 | an instance issues ALTERs exactly for the columns its read lacked, none on a migrated database |
| `Migration.NeverStuck` | src/lib/outbound/sqlite/init.rs:141-176 | an unfinished instance always has a next statement |
| `Migration.ExistingColumns` | src/lib/outbound/sqlite/init.rs:210-228 | the set read is the set of the table's columns at that moment |
| `Migration.AddColumn` | src/lib/outbound/sqlite/init.rs:183-208 | a column another instance added meanwhile counts as success |
| `Migration.Migrate` | src/lib/outbound/sqlite/init.rs:141-176 | its steps are those of an instance of the protocol, and it succeeds exactly if that instance gets done |
| `Process.Sqlite.InsertWebhook` | src/lib/outbound/sqlite/webhook.rs:85-103 | adds one fresh row under an id above all before it, or changes nothing |
| `Process.Sqlite.ReadAndDeleteByChannel` | src/lib/outbound/sqlite/webhook.rs:105-142 | returns an oldest batch and removes exactly it, or changes nothing |
| `Process.Sqlite.PeekOldestDueByChannel` | src/lib/outbound/sqlite/webhook.rs:144-170 | an oldest due row, or none if none is due |
| `Process.Sqlite.DeleteById` | src/lib/outbound/sqlite/webhook.rs:195-205 | removes that row alone, or changes nothing |
| `Process.Sqlite.RecordForwardFailure` | src/lib/outbound/sqlite/webhook.rs:207-232 | counts the failure and writes time, message and due time to that row alone; nothing if it is gone |
| `Process.Sqlite.CountByChannel` | src/lib/outbound/sqlite/webhook.rs:234-248 | the number of rows of the channel |
| `Process.Sqlite.ClearByChannel` | src/lib/outbound/sqlite/webhook.rs:273-287 | removes exactly the channel's rows and returns how many |
| `Process.Sqlite.GetById` | src/lib/outbound/sqlite/webhook.rs:289-304 | the row under the id, if there is one |
| `Process.Shared.UpdateStatus` | src/bin/kwp/background/forward.rs:121-127 | changes the entry of the channel, if it has one, and no pause of any channel |
| `Forwarding.Forwarder.IsPaused` | src/bin/kwp/background/forward.rs:113-119 | agrees with the protocol's pauses |
| `Forwarding.Forwarder.Run` | src/bin/kwp/background/forward.rs:89-107 | whatever the others do, the loop's own steps are a sequence of iterations, as many as asked for unless an answer ends the process in the last one |
| `Forwarding.Forwarder.Iterate` | src/bin/kwp/background/forward.rs:94-106 | a check, a pass unless paused, and a sleep unless the pass drained or the process died |
| `Forwarding.Forwarder.ForwardNext` | src/bin/kwp/background/forward.rs:159-257 | one peek, and one send if it found a webhook, of the body that id was received with |
| `Forwarding.Forwarder.Send` | src/bin/kwp/background/forward.rs:191-257 | nothing goes out but the specified request; a delivery is deleted, any other answer recorded as a failure, or nothing recorded and the process ended exactly if its preview would cut a character; drained exactly after a successful delete; not sent exactly if this webhook's body cannot be signed |
| `Forwarding.Forwarder.OnUnexpected` | src/bin/kwp/background/forward.rs:217-255 | ends the process exactly if the answer's preview panics, and records the failure otherwise, with the cause of the network error or the status and the preview |
| `Forwarding.Forwarder.SleepInterval` | src/bin/kwp/background/forward.rs:89-107 | the loop sleeps for at least the channel's interval |
| `Preview.PreviewIsExact` | src/bin/kwp/background/forward.rs:426-439 | panics exactly if the UTF-8 text is longer than 512 bytes and no character ends with the 512th, that is, byte 512 is a continuation byte; otherwise it is the text, or the text of its first 512 bytes with its size |
| `Preview.EncodeCarries` | src/bin/kwp/background/forward.rs:434-435 | the bytes of a character carry its code in six bits each, as RFC 3629 has it |
| `Preview.CutCharacterPanics` | src/bin/kwp/background/forward.rs:434-435 | so does any text of 511 bytes followed by a character outside ASCII |
| `Process.Shared.Abort` | Cargo.toml:6-10 | a panic loses the memory of the process and nothing of the table |
| `Forwarding.Forwarder.OnDelivered` | src/bin/kwp/background/forward.rs:323-355 | one delete; drained exactly if it succeeded; the status shows the delivery |
| `Forwarding.Forwarder.RecordFailure` | src/bin/kwp/background/forward.rs:359-410 | the row, if recorded and still there, shows the message and is due at the time of the failure plus the delay that the forwarder's own schedule gives for the attempt count read: what the target asked for, the ceiling for a 4xx other than 408 and 429, and a time within the band for everything else, network errors included; the status shows the failure |
| `Forwarding.Forwarder.WriteFailure` | src/bin/kwp/background/forward.rs:372-404 | the row is parked and the webhook reported exactly as the protocol's step says |
| `Routes.StoreWebhook` | src/bin/kwp/route/receive_webhook.rs:254-304 | 200 exactly with one row added, 503 or 500 with none |
| `Routes.ReadWebhooks` | src/bin/kwp/route/read_webhooks.rs:83-127 | returns what it deletes and deletes what it returns, the oldest rows of the channel, at most 1000; errors delete nothing |
| `Routes.ClearQueue` | src/bin/kwp/route/queue.rs:264-317 | empties the channel and no other, or changes nothing |
| `Routes.DeleteWebhook` | src/bin/kwp/route/delete_webhook.rs:64-98 | removes the id whatever its channel, or changes nothing |
| `Routes.SetPaused` | src/bin/kwp/route/queue.rs:174-262 | sets the pause of a forwarding channel and nothing else |
| `Routes.RetryWebhook` | src/bin/kwp/route/queue.rs:620-667 | 404 for an unknown channel, 400 for one that does not forward; otherwise no step, or a load of the very webhook, a send and a delete or a record of the whole answer, by the channel's own settings; 500 and no send exactly if its body cannot be signed |
| `Routes.LoadWebhookToRetry` | src/bin/kwp/route/queue.rs:595-618 | the webhook under the id if it belongs to the channel; 404 only if it does not, 503 or 500 if the database failed |
| `Routes.SendByHand` | src/bin/kwp/route/queue.rs:658-667 | sends the specified request and answers 200, or answers 500 and sends nothing if the channel cannot sign it |
| `Routes.OnAccepted` | src/bin/kwp/route/queue.rs:433-473 | the expected status leads to one delete |
| `Routes.ForgetDelivered` | src/bin/kwp/route/queue.rs:476-504 | one delete of the id that was sent; if it succeeds the row is gone |
| `Routes.RecordRetryFailure` | src/bin/kwp/route/queue.rs:510-545 | the row, if recorded and still there, is due at the time of the failure plus the delay of the channel's resolved schedule for the attempt count loaded, by the same cases of the answer; the status shows the failure |
| `Routes.CodeConservesWebhooks` | src/bin/kwp/route/receive_webhook.rs:254-304 | conservation and row shape hold of the real table after whatever the code did |
| `Routes.CodeBoundsDuplicates` | src/bin/kwp/route/queue.rs:476-504 | so does the duplicate bound |
| `Startup.DeployedCodeConserves` | src/bin/kwp/background/forward.rs:159-257 | both hold for the code of every deployed configuration |
| `Startup.DeployedCodeSpacesAttempts` | src/bin/kwp/background/forward.rs:359-386 | in whatever the deployed code did, the next attempt after an unrequested refusal comes no earlier than the delay documented for it |
| `Requests.SignatureIsExact` | src/bin/kwp/background/forward.rs:288-318 | a body is signed with the sign secret whatever the webhook secret is, with the webhook secret if there is no other, and through the template if there is one; not at all exactly if both secrets are absent or the template fails |
| `Requests.ForwarderRequest` | src/bin/kwp/background/forward.rs:261-321 | builds the specified request, which carries such a signature of the webhook's body under the sign header, or none exactly if the channel signs and cannot |
| `Requests.RetryRequest` | src/bin/kwp/route/queue.rs:338-367 | builds the specified request with such a signature, or answers 500 exactly if the channel signs and cannot |
| `Requests.Sign` | src/bin/kwp/route/queue.rs:373-405 | such a signature, or 500 exactly if there can be none |
| `Requests.BuildBoth` | src/bin/kwp/route/queue.rs:335-367 | forwarder and manual retry send the same url, timeout, body and headers, or both nothing |
| `Requests.SecretIsNeverMissing` | src/bin/kwp/background/forward.rs:291-302 | on a validated configuration the branch without a secret is unreachable |
| `Requests.Occurrences` | src/bin/kwp/background/forward.rs:264-321 | how often each header occurs in the request: once as content type `application/json`, once if it is stored, not ignored and not the sign header, once if it signs the body |
| `Requests.TargetSees` | src/bin/kwp/background/forward.rs:264-321 | the target gets the stored body, and a header exactly for one of these reasons |
| `Requests.SignatureStandsAloneIff` | src/bin/kwp/background/forward.rs:275-282 | the signature over the body sent is there exactly once and alone under its name, exactly if the sign header is not the content type |
| `Requests.ReceivedIsForwarded` | src/bin/kwp/route/receive_webhook.rs:243-252 | from sender to target the body stays the same, and a header travels exactly if it is text, not ignored, not the signature's and not replaced by a later one, besides the content type and the signature |
| `Requests.NoIgnoredHeaderTravels` | src/lib/outbound/config/env.rs:74-82 | no stored header, and so none that travels, is an ignored one in another spelling |
| `Headers.EqIgnoreCaseIsExact` | src/bin/kwp/background/forward.rs:275-282 | names are the same exactly if they differ at most in the case of ASCII letters |
| `Headers.GetIsExact` | src/bin/kwp/route/receive_webhook.rs:97-99 | a look-up gives the value of the first header of that name, if it is text |
| `Headers.StoredHeadersAreExact` | src/bin/kwp/route/receive_webhook.rs:243-252 | stored is exactly the last text value of each header that is not ignored, under its lower-case name |
| `Receive.VerifySecretIsExact` | src/bin/kwp/route/receive_webhook.rs:35-118 | without a secret or a header for it everybody passes; otherwise exactly who sends the secret itself in the first header of that name, or, through the template, the signature of this body in either case of its letters; 500 exactly if the template cannot read the header, 401 otherwise |
| `Receive.AdmitIsExact` | src/bin/kwp/route/receive_webhook.rs:202-236 | 404 exactly for an unknown channel; then 403 for a client not on the list, 401 or 500 for a sender who does not know the secret, 413 for a body above the channel's own limit or else the default, 415 unless the first content type starts with `application/json`, 422 unless it parses; admitted otherwise, and then never stopped by the common limit |
| `Receive.HmacChannelsAuthenticate` | src/bin/kwp/route/receive_webhook.rs:35-118 | on a validated configuration nothing enters an HMAC channel without a signature of its own body |
| `Receive.ReceiveWebhook` | src/bin/kwp/route/receive_webhook.rs:183-304 | 200 exactly with one row that holds the channel, the body and the time as received, the last text value of each header not ignored, and no failures; every other answer adds none |
| `Receive.ForwardsWhatItReceived` | src/bin/kwp/background/forward.rs:261-321 | whatever the code did in between, a request built from the row of a received webhook carries the received body and exactly the received headers that are kept and travel, besides the content type and the signature |

## Left out

- Rounding of `f64` and nanoseconds: delays are exact reals here.
- Several processes forwarding from one database, and two forwarding channels of one name: one process and one forwarder per channel are assumed. Concurrent instances appear in `Migration` alone.
- Startup.SpawnForwarders: only configurations without a repeated channel name and with ceilings below 2^63 minus the clock; the source also starts the others, whose two forwarders of one name would share a status.
- HeadOfLine.RejectionsBlockIff: counts no passes that come to nothing; with them, several rejected webhooks are covered by `HeadOfLine.BlocksForeverIff` alone, which says when they block for good, not for how many passes otherwise.
- Builds in which a panic unwinds: there only the forwarder's task ends, and its channel with it, until the next start.
- SQL text, sqlx, WAL and power loss: a statement is one step of the table. That a lock error has committed nothing is an axiom (`LockRetry.Database.Attempt`), as the source's comment states it.
- What other tasks do at an await point: `Process.Shared.Await` and `Migration.Database.Others` promise only what is stated about them; their bodies stand for any steps of the others. If the process dies meanwhile, the code waiting there does not go on.
- Endless loops: `Forwarding.Forwarder.Run` runs for as many iterations as it is given.
- Real HTTP and TLS: the target's answer is a status with an optional delay, or a network error.
- HMAC-SHA256, templates, JSON and address parsing are passed in as functions or answers.
- `Retry-After` as a date: the program ignores it.
- Rows that cannot be read back, rows written by an earlier version of the program, and a clock that itself exceeds `i64`.
- `queue_size` in the shared status may drift from the table: no claim is made about it.
- `reset_forward_attempts` and the listing for the UI: nothing in the running program calls the former, the latter only reads.
- Bearer tokens, client addresses behind proxies, metrics, logs, response bodies, the UI and deployment files.
