/**
  The build-log verifier: for every build that has no BUILD_OUTPUT_OK attribute yet, compare the
  output checksum held in the database with the digest the log store reports for the build's log.
  A match flags the build OK; a mismatch is retried on later runs, counted per build id, until the
  counter has reached `maxRetries`, at which point the build is flagged not OK.

  The log store and the orchestrator are not modelled: the digest fetched for each build is an
  input, and every attribute write the verifier attempts is appended to a ghost log.
*/
module LogVerifier {
  import opened Wrappers
  import opened OrchClient

  /** A build returned by the unverified-builds query: its id and its database checksum. */
  datatype Build = Build(id: string, buildOutputChecksum: string)

  /** The `IOException` the checksum fetch may throw. */
  datatype IOError = IOError(message: string)

  /** One attempted write of the BUILD_OUTPUT_OK attribute of a build. */
  datatype FlagCall = FlagCall(buildId: string, checksumMatch: bool)

  /** What verifying builds does: the retry counters afterwards and the attribute writes attempted. */
  datatype Effect = Effect(counters: map<string, nat>, flags: seq<FlagCall>)

  /** The counter of `id`, reading a missing entry as 0. */
  function Retries(counters: map<string, nat>, id: string): nat
  {
    if id in counters then counters[id] else 0
  }

  /** Both maps hold the same entry, or no entry, for `k`. */
  ghost predicate Agree(a: map<string, nat>, b: map<string, nat>, k: string)
  {
    (k in a <==> k in b) && (k in a ==> a[k] == b[k])
  }

  /** The invariant kept between calls: every stored counter lies in [1, maxRetries]. */
  ghost predicate CountersBounded(counters: map<string, nat>, maxRetries: int)
  {
    forall id :: id in counters ==> 1 <= counters[id] <= maxRetries
  }

  /** The ids of a batch of builds. */
  function Ids(builds: seq<Build>): set<string>
  {
    set i | 0 <= i < |builds| :: builds[i].id
  }

  /** The builds the unverified-builds query yields: none when the query throws. */
  function UnverifiedBuilds(query: Result<seq<Build>, RemoteResourceException>): seq<Build>
  {
    match query
    case Success(builds) => builds
    case Failure(_) => []
  }

  /**
    A checksum mismatch for `buildId`: a counter that has reached `maxRetries` escalates (the build
    is flagged not OK and its counter dropped), otherwise the counter, created at 0 when absent,
    goes up by one.
  */
  function MismatchStep(counters: map<string, nat>, buildId: string, maxRetries: int): (e: Effect)
    ensures forall k :: k != buildId ==> Agree(counters, e.counters, k)
    ensures CountersBounded(counters, maxRetries) ==> CountersBounded(e.counters, maxRetries)
    ensures |e.flags| <= 1 && forall f :: f in e.flags ==> f == FlagCall(buildId, false)
  {
    var numOfRetries := Retries(counters, buildId);
    if numOfRetries >= maxRetries then
      Effect(counters - {buildId}, [FlagCall(buildId, false)])
    else
      Effect(counters[buildId := numOfRetries + 1], [])
  }

  /** Verifying one build against the digest fetched from the log store (or the fetch's error). */
  function VerifyStep(counters: map<string, nat>, buildId: string, checksum: string,
                      esChecksum: Result<string, IOError>, maxRetries: int): (e: Effect)
    ensures forall k :: k != buildId ==> Agree(counters, e.counters, k)
    ensures CountersBounded(counters, maxRetries) ==> CountersBounded(e.counters, maxRetries)
    ensures |e.flags| <= 1 && forall f :: f in e.flags ==> f.buildId == buildId
  {
    match esChecksum
    case Failure(_) => Effect(counters, [])
    case Success(es) =>
      if checksum == es then Effect(counters - {buildId}, [FlagCall(buildId, true)])
      else MismatchStep(counters, buildId, maxRetries)
  }

  /** Verifying a batch of builds in order, the i-th against the i-th fetched digest. */
  function VerifyBatch(counters: map<string, nat>, builds: seq<Build>,
                       esChecksums: seq<Result<string, IOError>>, maxRetries: int): (e: Effect)
    requires |esChecksums| == |builds|
    ensures CountersBounded(counters, maxRetries) ==> CountersBounded(e.counters, maxRetries)
    ensures forall k :: k !in Ids(builds) ==> Agree(counters, e.counters, k)
    ensures |e.flags| <= |builds| && forall f :: f in e.flags ==> f.buildId in Ids(builds)
    decreases |builds|
  {
    if |builds| == 0 then Effect(counters, [])
    else
      var n := |builds| - 1;
      var before := VerifyBatch(counters, builds[..n], esChecksums[..n], maxRetries);
      assert Ids(builds) == Ids(builds[..n]) + {builds[n].id};
      var last := VerifyStep(before.counters, builds[n].id, builds[n].buildOutputChecksum,
                             esChecksums[n], maxRetries);
      Effect(last.counters, before.flags + last.flags)
  }

  /** When the checksums are equal the build is flagged OK and its counter is dropped. */
  lemma MatchFlagsOkAndDropsCounter(counters: map<string, nat>, buildId: string, checksum: string,
                                    maxRetries: int)
    ensures var e := VerifyStep(counters, buildId, checksum, Success(checksum), maxRetries);
      buildId !in e.counters && e.flags == [FlagCall(buildId, true)]
  {
  }

  /** A mismatch below the ceiling raises the counter by one (from 0 when absent) and flags nothing. */
  lemma MismatchBelowCeilingCounts(counters: map<string, nat>, buildId: string, checksum: string,
                                   esChecksum: string, maxRetries: int)
    requires checksum != esChecksum && Retries(counters, buildId) < maxRetries
    ensures var e := VerifyStep(counters, buildId, checksum, Success(esChecksum), maxRetries);
      buildId in e.counters && e.counters[buildId] == Retries(counters, buildId) + 1 && e.flags == []
  {
  }

  /** A mismatch at or above the ceiling flags the build not OK and drops its counter. */
  lemma MismatchAtCeilingEscalates(counters: map<string, nat>, buildId: string, checksum: string,
                                   esChecksum: string, maxRetries: int)
    requires checksum != esChecksum && Retries(counters, buildId) >= maxRetries
    ensures var e := VerifyStep(counters, buildId, checksum, Success(esChecksum), maxRetries);
      buildId !in e.counters && e.flags == [FlagCall(buildId, false)]
  {
  }

  /** A failed checksum fetch changes no counter and flags nothing. */
  lemma FetchErrorChangesNothing(counters: map<string, nat>, buildId: string, checksum: string,
                                 error: IOError, maxRetries: int)
    ensures VerifyStep(counters, buildId, checksum, Failure(error), maxRetries) == Effect(counters, [])
  {
  }

  /** `k` verifications in a row of one build whose fetched digest keeps disagreeing. */
  function RepeatedMismatch(counters: map<string, nat>, buildId: string, checksum: string,
                            esChecksum: string, k: nat, maxRetries: int): Effect
  {
    VerifyBatch(counters, seq(k, _ => Build(buildId, checksum)), seq(k, _ => Success(esChecksum)), maxRetries)
  }

  /** Mismatches that keep the counter within the ceiling only count: no flag is set. */
  lemma {:induction false} ConsecutiveMismatchesCount(counters: map<string, nat>, buildId: string,
                                                      checksum: string, esChecksum: string,
                                                      k: nat, maxRetries: int)
    requires checksum != esChecksum && Retries(counters, buildId) + k <= maxRetries
    ensures var e := RepeatedMismatch(counters, buildId, checksum, esChecksum, k, maxRetries);
      Retries(e.counters, buildId) == Retries(counters, buildId) + k
      && (k > 0 ==> buildId in e.counters) && e.flags == []
  {
    if k > 0 {
      ConsecutiveMismatchesCount(counters, buildId, checksum, esChecksum, k - 1, maxRetries);
      var builds := seq(k, _ => Build(buildId, checksum));
      var sums: seq<Result<string, IOError>> := seq(k, _ => Success(esChecksum));
      assert builds[..k - 1] == seq(k - 1, _ => Build(buildId, checksum));
      assert sums[..k - 1] == seq(k - 1, _ => Success(esChecksum));
    }
  }

  /**
    The retry boundary: starting without an entry, `maxRetries` mismatches leave the counter at
    `maxRetries` with no flag, and the next one flags the build not OK and clears the entry.
  */
  lemma {:induction false} RetryBoundary(counters: map<string, nat>, buildId: string,
                                         checksum: string, esChecksum: string, maxRetries: nat)
    requires checksum != esChecksum && buildId !in counters
    ensures var e := RepeatedMismatch(counters, buildId, checksum, esChecksum, maxRetries, maxRetries);
      Retries(e.counters, buildId) == maxRetries && e.flags == []
    ensures var e := RepeatedMismatch(counters, buildId, checksum, esChecksum, maxRetries + 1, maxRetries);
      buildId !in e.counters && e.flags == [FlagCall(buildId, false)]
  {
    ConsecutiveMismatchesCount(counters, buildId, checksum, esChecksum, maxRetries, maxRetries);
    var builds := seq(maxRetries + 1, _ => Build(buildId, checksum));
    var sums: seq<Result<string, IOError>> := seq(maxRetries + 1, _ => Success(esChecksum));
    assert builds[..maxRetries] == seq(maxRetries, _ => Build(buildId, checksum));
    assert sums[..maxRetries] == seq(maxRetries, _ => Success(esChecksum));
  }

  /** With a ceiling of 0 (or less) the very first mismatch escalates. */
  lemma FirstMismatchEscalatesWithoutRetries(counters: map<string, nat>, buildId: string,
                                             checksum: string, esChecksum: string, maxRetries: int)
    requires checksum != esChecksum && buildId !in counters && maxRetries <= 0
    ensures var e := RepeatedMismatch(counters, buildId, checksum, esChecksum, 1, maxRetries);
      buildId !in e.counters && e.flags == [FlagCall(buildId, false)]
  {
  }

  /** The attribute writes among `flags` that concern build `id`, in order. */
  function FlagsFor(flags: seq<FlagCall>, id: string): seq<FlagCall>
  {
    if |flags| == 0 then []
    else (if flags[0].buildId == id then [flags[0]] else []) + FlagsFor(flags[1..], id)
  }

  lemma {:induction false} FlagsForConcat(a: seq<FlagCall>, b: seq<FlagCall>, id: string)
    ensures FlagsFor(a + b, id) == FlagsFor(a, id) + FlagsFor(b, id)
  {
    if |a| > 0 {
      assert (a + b)[1..] == a[1..] + b;
      FlagsForConcat(a[1..], b, id);
    } else {
      assert a + b == b;
    }
  }

  lemma {:induction false} FlagsForNone(flags: seq<FlagCall>, id: string)
    requires forall f :: f in flags ==> f.buildId != id
    ensures FlagsFor(flags, id) == []
  {
    if |flags| > 0 {
      FlagsForNone(flags[1..], id);
    }
  }

  lemma {:induction false} FlagsForAll(flags: seq<FlagCall>, id: string)
    requires forall f :: f in flags ==> f.buildId == id
    ensures FlagsFor(flags, id) == flags
  {
    if |flags| > 0 {
      FlagsForAll(flags[1..], id);
      assert flags == [flags[0]] + flags[1..];
    }
  }

  /** What verifying a build does to its own entry depends on that entry alone. */
  lemma VerifyStepLocal(a: map<string, nat>, b: map<string, nat>, buildId: string, checksum: string,
                        esChecksum: Result<string, IOError>, maxRetries: int)
    requires Agree(a, b, buildId)
    ensures var ea := VerifyStep(a, buildId, checksum, esChecksum, maxRetries);
      var eb := VerifyStep(b, buildId, checksum, esChecksum, maxRetries);
      Agree(ea.counters, eb.counters, buildId) && ea.flags == eb.flags
  {
  }

  /** The last step of a batch, for the build it verifies: the steps before it leave that entry alone. */
  lemma LastStepActsAlone(counters: map<string, nat>, before: Effect, last: Effect, build: Build,
                          esChecksum: Result<string, IOError>, maxRetries: int)
    requires Agree(counters, before.counters, build.id)
    requires forall f :: f in before.flags ==> f.buildId != build.id
    requires last == VerifyStep(before.counters, build.id, build.buildOutputChecksum, esChecksum, maxRetries)
    ensures var s := VerifyStep(counters, build.id, build.buildOutputChecksum, esChecksum, maxRetries);
      Agree(last.counters, s.counters, build.id) && FlagsFor(before.flags + last.flags, build.id) == s.flags
  {
    FlagsForConcat(before.flags, last.flags, build.id);
    FlagsForNone(before.flags, build.id);
    FlagsForAll(last.flags, build.id);
    VerifyStepLocal(before.counters, counters, build.id, build.buildOutputChecksum, esChecksum, maxRetries);
  }

  /** A last step for another build adds no flag for `id`. */
  lemma LastStepLeavesOthers(before: Effect, last: Effect, id: string)
    requires forall f :: f in last.flags ==> f.buildId != id
    ensures FlagsFor(before.flags + last.flags, id) == FlagsFor(before.flags, id)
  {
    FlagsForConcat(before.flags, last.flags, id);
    FlagsForNone(last.flags, id);
  }

  /**
    A run lists each unflagged build once. For a build that occurs once in a batch, the batch
    leaves its entry and writes its flags exactly as verifying it alone would, whatever the other
    builds of the batch; so successive runs act on it like successive calls of `VerifyStep`.
  */
  lemma {:induction false} VerifyBatchActsOnceOnEachBuild(counters: map<string, nat>, builds: seq<Build>,
                                                         esChecksums: seq<Result<string, IOError>>,
                                                         maxRetries: int, j: nat)
    requires |esChecksums| == |builds| && j < |builds|
    requires forall i :: 0 <= i < |builds| && i != j ==> builds[i].id != builds[j].id
    ensures var id := builds[j].id;
      var e := VerifyBatch(counters, builds, esChecksums, maxRetries);
      var s := VerifyStep(counters, id, builds[j].buildOutputChecksum, esChecksums[j], maxRetries);
      Agree(e.counters, s.counters, id) && FlagsFor(e.flags, id) == s.flags
    decreases |builds|
  {
    var id := builds[j].id;
    var n := |builds| - 1;
    var prefix, sums := builds[..n], esChecksums[..n];
    var before := VerifyBatch(counters, prefix, sums, maxRetries);
    var last := VerifyStep(before.counters, builds[n].id, builds[n].buildOutputChecksum,
                           esChecksums[n], maxRetries);
    assert VerifyBatch(counters, builds, esChecksums, maxRetries) == Effect(last.counters, before.flags + last.flags);
    if j == n {
      assert id !in Ids(prefix);
      LastStepActsAlone(counters, before, last, builds[n], esChecksums[n], maxRetries);
    } else {
      assert forall i :: 0 <= i < |prefix| && i != j ==> prefix[i].id != prefix[j].id;
      VerifyBatchActsOnceOnEachBuild(counters, prefix, sums, maxRetries, j);
      LastStepLeavesOthers(before, last, id);
    }
  }

  /**
    The verifier of build output checksums. `buildESLogErrorCounter` maps a build id to the number
    of mismatches seen since its last match or escalation; `flagged` logs the attribute writes.
  */
  class BuildLogVerifier {
    const maxRetries: int
    var buildESLogErrorCounter: map<string, nat>
    ghost var flagged: seq<FlagCall>

    ghost predicate Valid()
      reads this
    {
      CountersBounded(buildESLogErrorCounter, maxRetries)
    }

    constructor (maxRetries: int)
      ensures Valid()
      ensures this.maxRetries == maxRetries && buildESLogErrorCounter == map[] && flagged == []
    {
      this.maxRetries := maxRetries;
      buildESLogErrorCounter := map[];
      flagged := [];
    }

    /** Verifies every build the query yields, one after another, and returns how many there were. */
    method VerifyUnflaggedBuilds(query: Result<seq<Build>, RemoteResourceException>,
                                 esChecksums: seq<Result<string, IOError>>) returns (count: nat)
      requires Valid()
      requires |esChecksums| == |UnverifiedBuilds(query)|
      modifies this
      ensures Valid()
      ensures count == |UnverifiedBuilds(query)|
      ensures var e := VerifyBatch(old(buildESLogErrorCounter), UnverifiedBuilds(query), esChecksums, maxRetries);
        buildESLogErrorCounter == e.counters && flagged == old(flagged) + e.flags
    {
      var unverifiedBuilds := UnverifiedBuilds(query);
      var i := 0;
      while i < |unverifiedBuilds|
        invariant 0 <= i <= |unverifiedBuilds|
        invariant Valid()
        invariant var e := VerifyBatch(old(buildESLogErrorCounter), unverifiedBuilds[..i], esChecksums[..i], maxRetries);
          buildESLogErrorCounter == e.counters && flagged == old(flagged) + e.flags
      {
        assert unverifiedBuilds[..i + 1][..i] == unverifiedBuilds[..i];
        assert esChecksums[..i + 1][..i] == esChecksums[..i];
        Verify(unverifiedBuilds[i].id, unverifiedBuilds[i].buildOutputChecksum, esChecksums[i]);
        i := i + 1;
      }
      assert unverifiedBuilds[..i] == unverifiedBuilds;
      assert esChecksums[..i] == esChecksums;
      count := |unverifiedBuilds|;
    }

    /** Verifies one build; a failed fetch is logged and leaves everything as it was. */
    method Verify(buildId: string, checksum: string, esChecksum: Result<string, IOError>)
      requires Valid()
      modifies this
      ensures Valid()
      ensures var e := VerifyStep(old(buildESLogErrorCounter), buildId, checksum, esChecksum, maxRetries);
        buildESLogErrorCounter == e.counters && flagged == old(flagged) + e.flags
    {
      match esChecksum
      case Failure(_) =>
      case Success(es) =>
        if checksum == es {
          FlagPncBuild(buildId, true);
          RemoveRetryCounter(buildId);
        } else {
          HandleMismatchWithRetries(buildId);
        }
    }

    method RemoveRetryCounter(buildId: string)
      modifies this`buildESLogErrorCounter
      ensures buildESLogErrorCounter == old(buildESLogErrorCounter) - {buildId}
    {
      buildESLogErrorCounter := buildESLogErrorCounter - {buildId};
    }

    method HandleMismatchWithRetries(buildId: string)
      modifies this
      ensures var e := MismatchStep(old(buildESLogErrorCounter), buildId, maxRetries);
        buildESLogErrorCounter == e.counters && flagged == old(flagged) + e.flags
    {
      if buildId !in buildESLogErrorCounter {
        buildESLogErrorCounter := buildESLogErrorCounter[buildId := 0];
      }
      var numOfRetries := buildESLogErrorCounter[buildId];
      if numOfRetries >= maxRetries {
        FlagPncBuild(buildId, false);
        RemoveRetryCounter(buildId);
        return;
      }
      buildESLogErrorCounter := buildESLogErrorCounter[buildId := buildESLogErrorCounter[buildId] + 1];
    }

    /** Sets the BUILD_OUTPUT_OK attribute; a remote failure is caught and only logged. */
    method FlagPncBuild(buildId: string, checksumMatch: bool)
      modifies this`flagged
      ensures flagged == old(flagged) + [FlagCall(buildId, checksumMatch)]
    {
      flagged := flagged + [FlagCall(buildId, checksumMatch)];
    }
  }
}
