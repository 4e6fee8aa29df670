# PNC cleaner: build-log verifier and temporary-build deletion

A Dafny model of two pieces of decision logic in the PNC cleaner service.

- **Build-log verifier** (`LogVerifier`, from `BuildLogVerifier.java`). Every build without a
  `BUILD_OUTPUT_OK` attribute is checked. Its database checksum is compared with the digest that
  the log store (Bifrost) reports for its log.
  - A match flags the build OK and drops the build's retry counter.
  - A mismatch increments the counter. Once the counter has reached `maxRetries`, the build is
    flagged not OK and the counter is dropped instead.
  - The class `BuildLogVerifier` holds the counter map `buildESLogErrorCounter` (`map<string, nat>`)
    and a ghost log `flagged` of the attribute writes it attempts.
  - Its methods are proved against the pure functions `MismatchStep`, `VerifyStep` and
    `VerifyBatch`. The lemmas beside them state the retry policy.
- **Temporary-build cleaner adapter** (`TemporaryBuilds`, from
  `TemporaryBuildsCleanerAdapterImpl.java`).
  - The class `TemporaryBuildsCleanerAdapter` filters expired builds down to archived ones and
    collects expired group builds.
  - It deletes builds and group builds through the callback protocol: initialise a handler on a
    callback manager, send the delete with a callback URL, await the callback, interpret the
    result, and cancel on the exception paths.
  - The callback managers and REST clients are not modelled. Their answers are method inputs, and
    each call made on them is appended to the event trace `calls`.
  - Both delete methods are proved against one function, `DeleteRunOf`, taken under a `Protocol`.
    A protocol says which manager registers and awaits, which client sends, and which manager is
    cancelled.

Remote services become inputs:
- the digest fetch is a `Result<string, IOError>`;
- the build and group-build queries are a `Result<seq<…>, RemoteResourceException>`;
- the delete send is an `Outcome<RemoteResourceException>`;
- a manager's `await` is an `AwaitOutcome`: the posted result, possibly null, or `Interrupted`.

The configuration values `maxRetries`, `applicationUri` and the `BUILD_ARCHIVED` key are
constructor parameters.

Three behaviours of the code that the model reproduces:
- **Retry boundary.** `handleMismatchWithRetries` creates a missing entry at 0 and compares it with
  `maxRetries` before incrementing. So with `maxRetries = N`, N mismatches leave the counter at N,
  and the (N+1)-th escalates. N = 1 escalates on the second mismatch, and N ≤ 0 on the first.
- **Missing callback.** A null awaited result throws `OrchInteractionException` without calling
  `cancel` (`TemporaryBuildsCleanerAdapterImpl.java:142-152`).
- **Group-build errors.** The group-build exception paths call `cancel` on the build manager
  (`TemporaryBuildsCleanerAdapterImpl.java:218` and `:227`). See Findings.

## Model

| member | source | states |
|---|---|---|
| LogVerifier.MismatchStep | src/main/java/org/jboss/pnc/cleaner/logverifier/BuildLogVerifier.java:141-158 | a mismatch changes no other build's counter, keeps every counter in [1, maxRetries], and sets at most one flag, always "not OK" |
| LogVerifier.VerifyStep | src/main/java/org/jboss/pnc/cleaner/logverifier/BuildLogVerifier.java:110-134 | verifying a build touches only its own counter entry, keeps counters in [1, maxRetries], and flags at most that build once |
| LogVerifier.VerifyBatch | src/main/java/org/jboss/pnc/cleaner/logverifier/BuildLogVerifier.java:100-107 | a batch keeps counters in [1, maxRetries], leaves the entries of ids outside the batch unchanged, and flags at most one write per build, only for builds of the batch |
| LogVerifier.MatchFlagsOkAndDropsCounter | src/main/java/org/jboss/pnc/cleaner/logverifier/BuildLogVerifier.java:115-119 | equal checksums flag the build `true` and leave it without a counter entry |
| LogVerifier.MismatchBelowCeilingCounts | src/main/java/org/jboss/pnc/cleaner/logverifier/BuildLogVerifier.java:142-157 | a mismatch with the entry absent or below maxRetries leaves the entry one higher (1 when absent) and flags nothing |
| LogVerifier.MismatchAtCeilingEscalates | src/main/java/org/jboss/pnc/cleaner/logverifier/BuildLogVerifier.java:146-152 | a mismatch with the counter at or above maxRetries flags the build `false` and removes the entry |
| LogVerifier.FetchErrorChangesNothing | src/main/java/org/jboss/pnc/cleaner/logverifier/BuildLogVerifier.java:130-133 | an IOException from the digest fetch leaves the counter map unchanged and sets no flag |
| LogVerifier.ConsecutiveMismatchesCount | src/main/java/org/jboss/pnc/cleaner/logverifier/BuildLogVerifier.java:142-157 | k mismatches in a row that stay within maxRetries raise the counter by exactly k and set no flag |
| LogVerifier.RetryBoundary | src/main/java/org/jboss/pnc/cleaner/logverifier/BuildLogVerifier.java:142-157 | from no entry, N = maxRetries mismatches leave counter N and no flag; the (N+1)-th flags `false` and clears the entry |
| LogVerifier.FirstMismatchEscalatesWithoutRetries | src/main/java/org/jboss/pnc/cleaner/logverifier/BuildLogVerifier.java:147-152 | with maxRetries ≤ 0 the first mismatch flags `false` and leaves no entry |
| LogVerifier.VerifyStepLocal | src/main/java/org/jboss/pnc/cleaner/logverifier/BuildLogVerifier.java:110-158 | what verifying a build does to its own counter entry and flags depends only on that entry, not on other builds' entries |
| LogVerifier.VerifyBatchActsOnceOnEachBuild | src/main/java/org/jboss/pnc/cleaner/logverifier/BuildLogVerifier.java:103-105 | for a build listed once in a run, the run leaves its counter entry and writes its flags exactly as verifying it alone would, whatever the other builds of the run; successive runs therefore act on it as successive single verifications |
| LogVerifier.BuildLogVerifier.constructor | src/main/java/org/jboss/pnc/cleaner/logverifier/BuildLogVerifier.java:77-80 | the verifier starts with an empty counter map, no flags, and the given maxRetries |
| LogVerifier.BuildLogVerifier.VerifyUnflaggedBuilds | src/main/java/org/jboss/pnc/cleaner/logverifier/BuildLogVerifier.java:99-107 | verifies each fetched build once, in order; returns the number fetched whatever the outcomes (0 when the query fails); the new counters and flags are those of VerifyBatch |
| LogVerifier.BuildLogVerifier.Verify | src/main/java/org/jboss/pnc/cleaner/logverifier/BuildLogVerifier.java:109-134 | the new counter map and flag log are those of VerifyStep, and the counter invariant is kept |
| LogVerifier.BuildLogVerifier.RemoveRetryCounter | src/main/java/org/jboss/pnc/cleaner/logverifier/BuildLogVerifier.java:136-138 | the build's entry is removed and no other entry changes |
| LogVerifier.BuildLogVerifier.HandleMismatchWithRetries | src/main/java/org/jboss/pnc/cleaner/logverifier/BuildLogVerifier.java:140-158 | the new counter map and flag log are those of MismatchStep |
| LogVerifier.BuildLogVerifier.FlagPncBuild | src/main/java/org/jboss/pnc/cleaner/logverifier/BuildLogVerifier.java:170-177 | the attempted write is appended to the flag log; a remote failure does not reach the caller |
| TemporaryBuilds.DeleteRunOf | src/main/java/org/jboss/pnc/cleaner/temporaryBuilds/TemporaryBuildsCleanerAdapterImpl.java:136-233 | the delete protocol of both delete methods: the handler is initialised before the delete with its callback URL is sent, and a delete that returns normally never calls `cancel` |
| TemporaryBuilds.DeleteCallOrder | src/main/java/org/jboss/pnc/cleaner/temporaryBuilds/TemporaryBuildsCleanerAdapterImpl.java:136-169 | the handler is initialised first, the delete with its callback URL is sent second, the await comes third when the send did not throw, and a cancel is always the last call |
| TemporaryBuilds.DeleteSucceedsIff | src/main/java/org/jboss/pnc/cleaner/temporaryBuilds/TemporaryBuildsCleanerAdapterImpl.java:142-152 | a delete returns normally iff the send did not throw and the awaited result is non-null with a non-null success status |
| TemporaryBuilds.DeleteFailureKind | src/main/java/org/jboss/pnc/cleaner/temporaryBuilds/TemporaryBuildsCleanerAdapterImpl.java:142-169 | a thrown send, an interrupted wait and a reported failure each end in an OrchInteractionException of that cause |
| TemporaryBuilds.CancelExactlyOnExceptionPaths | src/main/java/org/jboss/pnc/cleaner/temporaryBuilds/TemporaryBuildsCleanerAdapterImpl.java:154-169 | `cancel(id)` happens iff the send threw or the wait was interrupted, only on the protocol's cancel manager; the success and reported-failure paths never cancel |
| TemporaryBuilds.ErrorPathReleasesHandler | src/main/java/org/jboss/pnc/cleaner/temporaryBuilds/TemporaryBuildsCleanerAdapterImpl.java:136-169 | when the cancel manager is the one the handler was registered on (the build protocol), every exception path cancels that handler |
| TemporaryBuilds.GroupBuildErrorLeavesGroupHandler | src/main/java/org/jboss/pnc/cleaner/temporaryBuilds/TemporaryBuildsCleanerAdapterImpl.java:198-233 | on the group-build exception paths `cancel(id)` goes to the build manager and the group manager's handler is never cancelled |
| TemporaryBuilds.IntendedGroupBuildErrorReleasesHandler | src/main/java/org/jboss/pnc/cleaner/temporaryBuilds/TemporaryBuildsCleanerAdapterImpl.java:198-233 | with the cancel on the group manager, every group-build exception path cancels the group handler and never the build manager |
| TemporaryBuilds.CallbackUrlNamesId | src/main/java/org/jboss/pnc/cleaner/temporaryBuilds/TemporaryBuildsCleanerAdapterImpl.java:96-97 | the id is the tail of its callback URL after the base, so distinct ids get distinct URLs |
| TemporaryBuilds.BuildAndGroupCallbackUrlsDiffer | src/main/java/org/jboss/pnc/cleaner/temporaryBuilds/TemporaryBuildsCleanerAdapterImpl.java:96-97 | a build's delete-callback URL never equals a group build's, whatever the ids |
| TemporaryBuilds.TemporaryBuildsCleanerAdapter.constructor | src/main/java/org/jboss/pnc/cleaner/temporaryBuilds/TemporaryBuildsCleanerAdapterImpl.java:92-100 | the two URL bases are `applicationUri + "/callbacks/delete/builds/"` and `applicationUri + "/callbacks/delete/group-builds/"` |
| TemporaryBuilds.TemporaryBuildsCleanerAdapter.FindTemporaryBuildsOlderThan | src/main/java/org/jboss/pnc/cleaner/temporaryBuilds/TemporaryBuildsCleanerAdapterImpl.java:102-132 | returns exactly the queried builds whose attributes hold the BUILD_ARCHIVED key; a failed query returns the empty set and throws nothing |
| TemporaryBuilds.TemporaryBuildsCleanerAdapter.FindTemporaryGroupBuildsOlderThan | src/main/java/org/jboss/pnc/cleaner/temporaryBuilds/TemporaryBuildsCleanerAdapterImpl.java:173-193 | returns exactly the queried group builds, with no filtering; a failed query returns the empty set and throws nothing |
| TemporaryBuilds.TemporaryBuildsCleanerAdapter.DeleteTemporaryBuild | src/main/java/org/jboss/pnc/cleaner/temporaryBuilds/TemporaryBuildsCleanerAdapterImpl.java:134-171 | appends the calls of the build protocol to the trace, with callback URL `base + id`, and ends as that protocol says |
| TemporaryBuilds.TemporaryBuildsCleanerAdapter.DeleteTemporaryGroupBuild | src/main/java/org/jboss/pnc/cleaner/temporaryBuilds/TemporaryBuildsCleanerAdapterImpl.java:195-234 | appends the calls of the group-build protocol as written: initialise and await on the group manager, send with the group-build URL, cancel on the build manager |

## Left out

- The callback managers are not part of this model. This covers their handler registry, how the
  callback resolves a waiter, and how a wait times out or blocks. `await` is an input of type
  `AwaitOutcome`; `initializeHandler`, `await` and `cancel` appear only as trace events.
- The REST clients are not modelled: Bifrost, the build and group-build clients, and the
  authenticated client producer. Their answers are inputs. This leaves out the query filters, the
  Bifrost match-filter string, the batch size, and the closing of clients in try-with-resources.
  A failure while obtaining or closing an authenticated client is not modelled either.
- `formatTimestampForRsql` and the expiration-date parameters of both find operations are left out.
  The date only shapes the remote query, whose answer is an input.
- `getUnverifiedBuilds` is modelled only by its result: the builds it returns, or none when it
  throws (`UnverifiedBuilds`).
- LogVerifier.BuildLogVerifier.FlagPncBuild: does not model whether the remote write succeeded. The
  source catches and only logs that failure, so the model records each attempted write and gives it
  no failure path.
- A null digest or a null `MetaData` from Bifrost is left out. A null digest compares unequal, like
  any digest that differs. A null `MetaData`'s `NullPointerException` would end the whole batch.
  Unchecked exceptions are not modelled.
- The `BUILD_ARCHIVED` key is defined in `BuildArchiver`, which is not part of this model. It is a
  constructor parameter, and every property holds for any key.
- `ResultStatus` is reduced to its `isSuccess()` answer. Its enum is not part of this model.
- Exception messages are left out; only the kind of `OrchInteractionException` is kept, by cause.
- Metrics counters, `@Timed`, OpenTelemetry spans and logging are left out as observability only.
- `AtomicInteger` wrap-around is not modelled. A counter only increments while it is below
  `maxRetries`, which is a Java `int`, so it never overflows.
- Concurrency is left out: the unsynchronised `HashMap` and the schedulers' skip-if-running
  discipline. The model is sequential.
- `BuildLogVerifierScheduler` and `TemporaryBuildsCleanupScheduler` are left out. They are cron
  triggers that delegate in one line.

## Findings

| source | as written | input that shows it | evidently intended | confidence | as-written member | corrected member |
|---|---|---|---|---|---|---|
| src/main/java/org/jboss/pnc/cleaner/temporaryBuilds/TemporaryBuildsCleanerAdapterImpl.java:216-233 | the exception paths of `deleteTemporaryGroupBuild` call `buildDeleteCallbackManager.cancel(id)` | any group-build id whose delete throws `RemoteResourceException`, or whose await is interrupted | cancel on `buildGroupDeleteCallbackManager`, where the handler was initialised (line 198), so that handler is released | medium; not executed | TemporaryBuilds.GroupBuildErrorLeavesGroupHandler | TemporaryBuilds.IntendedGroupBuildErrorReleasesHandler |

The adapter's `DeleteTemporaryGroupBuild` keeps the call as written, because it models the code.
The corrected protocol is `IntendedGroupBuildProtocol`. The general lemmas about `DeleteRunOf` hold
for it as well as for the other protocols.
