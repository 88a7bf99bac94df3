/** Vault health: which reasons a set of facts gives at a time, and when the next summary is due. */
module Health {
  import opened Wrappers

  const STAGED_BLOB_STALE_MS: int := 60 * 60 * 1000
  const PENDING_DELETE_STALE_MS: int := 24 * 60 * 60 * 1000
  const ACTIVE_WITHOUT_RECENT_COMMIT_MS: int := 24 * 60 * 60 * 1000
  const PENDING_DELETE_BACKLOG_WARNING_COUNT: int := 100

  datatype Status = Healthy | Warning | Critical

  datatype Reason =
    | StorageOverLimit
    | StorageNearLimit
    | StagedBlobStale
    | PendingDeleteStale
    | PendingDeleteBacklog
    | ActiveWithoutRecentCommit

  datatype Facts = Facts(
    storageUsedBytes: int,
    storageLimitBytes: int,
    oldestStagedBlobAgeMs: Option<int>,
    oldestPendingDeleteAgeMs: Option<int>,
    collectiblePendingDeleteBlobCount: int,
    activeLocalVaultCount: int,
    lastCommitAt: Option<int>)

  /** When a reason applies, stated reason by reason. */
  predicate Applies(reason: Reason, facts: Facts, now: int) {
    var overLimit := facts.storageLimitBytes > 0 && facts.storageUsedBytes >= facts.storageLimitBytes;
    match reason
    case StorageOverLimit => overLimit
    case StorageNearLimit =>
      && !overLimit
      && facts.storageLimitBytes > 0
      && facts.storageUsedBytes >= facts.storageLimitBytes * 8 / 10
    case StagedBlobStale =>
      facts.oldestStagedBlobAgeMs.Some? && facts.oldestStagedBlobAgeMs.value >= STAGED_BLOB_STALE_MS
    case PendingDeleteStale =>
      facts.oldestPendingDeleteAgeMs.Some? && facts.oldestPendingDeleteAgeMs.value >= PENDING_DELETE_STALE_MS
    case PendingDeleteBacklog =>
      facts.collectiblePendingDeleteBlobCount > PENDING_DELETE_BACKLOG_WARNING_COUNT
    case ActiveWithoutRecentCommit =>
      && facts.activeLocalVaultCount > 0
      && (facts.lastCommitAt.Some? ==> now - facts.lastCommitAt.value >= ACTIVE_WITHOUT_RECENT_COMMIT_MS)
  }

  // The order in which the evaluation considers the reasons.
  const REPORTED: seq<Reason> :=
    [StorageOverLimit, StorageNearLimit, StagedBlobStale, PendingDeleteStale, PendingDeleteBacklog,
     ActiveWithoutRecentCommit]

  /** The reasons among the first n that apply, in reporting order. */
  function ReasonsAmong(n: nat, facts: Facts, now: int): (reasons: seq<Reason>)
    requires n <= |REPORTED|
    ensures forall r :: r in reasons <==> r in REPORTED[..n] && Applies(r, facts, now)
  {
    if n == 0 then []
    else ReasonsAmong(n - 1, facts, now)
         + (if Applies(REPORTED[n - 1], facts, now) then [REPORTED[n - 1]] else [])
  }

  lemma EveryReasonIsReported()
    ensures forall r: Reason :: r in REPORTED
  {
    forall r: Reason
      ensures r in REPORTED
    {
      match r
      case StorageOverLimit => assert REPORTED[0] == r;
      case StorageNearLimit => assert REPORTED[1] == r;
      case StagedBlobStale => assert REPORTED[2] == r;
      case PendingDeleteStale => assert REPORTED[3] == r;
      case PendingDeleteBacklog => assert REPORTED[4] == r;
      case ActiveWithoutRecentCommit => assert REPORTED[5] == r;
    }
  }

  function Reasons(facts: Facts, now: int): (reasons: seq<Reason>)
    ensures forall r :: r in reasons <==> Applies(r, facts, now)
  {
    assert REPORTED[..|REPORTED|] == REPORTED;
    EveryReasonIsReported();
    ReasonsAmong(|REPORTED|, facts, now)
  }

  /** The reasons in plain numbers: the limit, eighty percent of it rounded down, an hour for a staged
      blob, a day for a pending delete, more than a hundred pending deletes, and a day without a commit. */
  lemma ReasonsInNumbers(facts: Facts, now: int)
    ensures var reasons := Reasons(facts, now);
            var used, limit := facts.storageUsedBytes, facts.storageLimitBytes;
            && (StorageOverLimit in reasons <==> 0 < limit <= used)
            && (StorageNearLimit in reasons <==> used < limit && 0 < limit && 80 * limit < 100 * (used + 1))
            && (StagedBlobStale in reasons <==>
                  facts.oldestStagedBlobAgeMs.Some? && facts.oldestStagedBlobAgeMs.value >= 3_600_000)
            && (PendingDeleteStale in reasons <==>
                  facts.oldestPendingDeleteAgeMs.Some? && facts.oldestPendingDeleteAgeMs.value >= 86_400_000)
            && (PendingDeleteBacklog in reasons <==> facts.collectiblePendingDeleteBlobCount > 100)
            && (ActiveWithoutRecentCommit in reasons <==>
                  facts.activeLocalVaultCount > 0
                  && (facts.lastCommitAt.None? || now - facts.lastCommitAt.value >= 86_400_000))
  {
    assert facts.storageLimitBytes * 8 == facts.storageLimitBytes * 8 / 10 * 10 + facts.storageLimitBytes * 8 % 10;
  }

  lemma OneMoreReason(n: nat, facts: Facts, now: int)
    requires n < |REPORTED|
    ensures ReasonsAmong(n + 1, facts, now)
         == if Applies(REPORTED[n], facts, now) then ReasonsAmong(n, facts, now) + [REPORTED[n]]
            else ReasonsAmong(n, facts, now)
    ensures ReasonsAmong(0, facts, now) == []
  {}

  /** The status that belongs to a list of reasons. */
  predicate Consistent(status: Status, reasons: seq<Reason>) {
    && (status.Healthy? <==> reasons == [])
    && (status.Critical? <==> StorageOverLimit in reasons)
  }

  /** Appends the next reason as a warning if it applies; a warning never lowers the status. */
  method WarnIf(fires: bool, n: nat, facts: Facts, now: int, status: Status, reasons: seq<Reason>)
    returns (status': Status, reasons': seq<Reason>)
    requires 0 < n < |REPORTED| && fires == Applies(REPORTED[n], facts, now)
    requires reasons == ReasonsAmong(n, facts, now) && Consistent(status, reasons)
    ensures reasons' == ReasonsAmong(n + 1, facts, now) && Consistent(status', reasons')
  {
    hide ReasonsAmong, Applies;
    OneMoreReason(n, facts, now);
    status', reasons' := status, reasons;
    if fires {
      if status.Healthy? {
        status' := Warning;
      }
      reasons' := reasons + [REPORTED[n]];
    }
  }

  /** Evaluates the facts as the original does, by raising a status and collecting reasons. */
  method EvaluateHealth(facts: Facts, now: int) returns (status: Status, reasons: seq<Reason>)
    ensures reasons == Reasons(facts, now) && Consistent(status, reasons)
  {
    hide ReasonsAmong;
    OneMoreReason(0, facts, now);
    status, reasons := Healthy, [];
    var overLimit := facts.storageLimitBytes > 0 && facts.storageUsedBytes >= facts.storageLimitBytes;
    if overLimit {
      status, reasons := Critical, [StorageOverLimit];
    }
    status, reasons := WarnIf(
      !overLimit && facts.storageLimitBytes > 0 && facts.storageUsedBytes >= facts.storageLimitBytes * 8 / 10,
      1, facts, now, status, reasons);
    status, reasons := WarnIf(
      facts.oldestStagedBlobAgeMs.Some? && facts.oldestStagedBlobAgeMs.value >= STAGED_BLOB_STALE_MS,
      2, facts, now, status, reasons);
    status, reasons := WarnIf(
      facts.oldestPendingDeleteAgeMs.Some? && facts.oldestPendingDeleteAgeMs.value >= PENDING_DELETE_STALE_MS,
      3, facts, now, status, reasons);
    status, reasons := WarnIf(
      facts.collectiblePendingDeleteBlobCount > PENDING_DELETE_BACKLOG_WARNING_COUNT,
      4, facts, now, status, reasons);
    status, reasons := WarnIf(
      && facts.activeLocalVaultCount > 0
      && (facts.lastCommitAt.None? || now - facts.lastCommitAt.value >= ACTIVE_WITHOUT_RECENT_COMMIT_MS),
      5, facts, now, status, reasons);
  }

  function FutureDueFromAge(now: int, ageMs: Option<int>, thresholdMs: int): Option<int> {
    if ageMs.None? || ageMs.value >= thresholdMs then None else Some(now + (thresholdMs - ageMs.value))
  }

  function CommitWarningAt(facts: Facts, now: int): Option<int> {
    if facts.activeLocalVaultCount > 0 && facts.lastCommitAt.Some?
       && facts.lastCommitAt.value + ACTIVE_WITHOUT_RECENT_COMMIT_MS > now
    then Some(facts.lastCommitAt.value + ACTIVE_WITHOUT_RECENT_COMMIT_MS)
    else None
  }

  function Listed(due: Option<int>): seq<int> {
    if due.Some? then [due.value] else []
  }

  /** The future times at which a time-based reason starts to apply. */
  function Candidates(facts: Facts, now: int): seq<int> {
    Listed(CommitWarningAt(facts, now))
    + Listed(FutureDueFromAge(now, facts.oldestStagedBlobAgeMs, STAGED_BLOB_STALE_MS))
    + Listed(FutureDueFromAge(now, facts.oldestPendingDeleteAgeMs, PENDING_DELETE_STALE_MS))
  }

  function Earliest(times: seq<int>): (least: int)
    requires times != []
    ensures least in times
    ensures forall t | t in times :: least <= t
  {
    if |times| == 1 then times[0]
    else
      var rest := Earliest(times[1..]);
      assert forall t | t in times :: t == times[0] || t in times[1..];
      if times[0] <= rest then times[0] else rest
  }

  function NextFlush(facts: Facts, now: int): Option<int> {
    var candidates := Candidates(facts, now);
    if candidates == [] then None else Some(Earliest(candidates))
  }

  /** Collects the candidate times and takes the least. */
  method NextHealthSummaryFlushAt(facts: Facts, now: int) returns (due: Option<int>)
    ensures due == NextFlush(facts, now)
  {
    var candidates: seq<int> := [];
    if facts.activeLocalVaultCount > 0 && facts.lastCommitAt.Some? {
      var commitWarningAt := facts.lastCommitAt.value + ACTIVE_WITHOUT_RECENT_COMMIT_MS;
      if commitWarningAt > now {
        candidates := candidates + [commitWarningAt];
      }
    }
    var staged := FutureDueFromAge(now, facts.oldestStagedBlobAgeMs, STAGED_BLOB_STALE_MS);
    if staged.Some? {
      candidates := candidates + [staged.value];
    }
    var pendingDelete := FutureDueFromAge(now, facts.oldestPendingDeleteAgeMs, PENDING_DELETE_STALE_MS);
    if pendingDelete.Some? {
      candidates := candidates + [pendingDelete.value];
    }
    assert candidates == Candidates(facts, now);
    if candidates == [] {
      return None;
    }
    due := Some(Earliest(candidates));
  }

  // -------------------------------------------------------------- schedule

  function Older(age: Option<int>, elapsed: int): Option<int> {
    if age.Some? then Some(age.value + elapsed) else None
  }

  /** The same facts read `elapsed` milliseconds later, when nothing else has changed. */
  function Aged(facts: Facts, elapsed: int): Facts {
    facts.(oldestStagedBlobAgeMs := Older(facts.oldestStagedBlobAgeMs, elapsed),
           oldestPendingDeleteAgeMs := Older(facts.oldestPendingDeleteAgeMs, elapsed))
  }

  /** The reasons reported at time t for facts that were read at `now`. */
  function ReasonsAt(facts: Facts, now: int, t: int): seq<Reason> {
    Reasons(Aged(facts, t - now), t)
  }

  lemma {:induction false} SameApplicationsSameReasons(n: nat, f: Facts, t: int, g: Facts, u: int)
    requires n <= |REPORTED|
    requires forall r: Reason :: Applies(r, f, t) <==> Applies(r, g, u)
    ensures ReasonsAmong(n, f, t) == ReasonsAmong(n, g, u)
  {
    if n > 0 {
      SameApplicationsSameReasons(n - 1, f, t, g, u);
    }
  }

  /** When a reason starts to apply, counting from `now`; None if it never does. */
  function StartOf(reason: Reason, facts: Facts, now: int): Option<int> {
    if Applies(reason, facts, now) then Some(now)
    else
      match reason
      case ActiveWithoutRecentCommit => CommitWarningAt(facts, now)
      case StagedBlobStale => FutureDueFromAge(now, facts.oldestStagedBlobAgeMs, STAGED_BLOB_STALE_MS)
      case PendingDeleteStale => FutureDueFromAge(now, facts.oldestPendingDeleteAgeMs, PENDING_DELETE_STALE_MS)
      case _ => None
  }

  /** A reason applies from exactly one time on, if ever: at once, or from a candidate time. */
  lemma ReasonsOnlyStartAtCandidates(reason: Reason, facts: Facts, now: int, t: int)
    requires now <= t
    ensures var start := StartOf(reason, facts, now);
            && (Applies(reason, Aged(facts, t - now), t) <==> start.Some? && start.value <= t)
            && (start.Some? && start != Some(now) ==> start.value in Candidates(facts, now))
  {
    var commit := CommitWarningAt(facts, now);
    var staged := FutureDueFromAge(now, facts.oldestStagedBlobAgeMs, STAGED_BLOB_STALE_MS);
    var deleted := FutureDueFromAge(now, facts.oldestPendingDeleteAgeMs, PENDING_DELETE_STALE_MS);
    if commit.Some? { assert commit.value in Candidates(facts, now); }
    if staged.Some? { assert staged.value in Candidates(facts, now); }
    if deleted.Some? { assert deleted.value in Candidates(facts, now); }
  }

  /** The schedule is exact. The report is constant until the next flush; at that very time it
      gains a reason and loses none; and when nothing is scheduled it never changes again. */
  lemma ScheduleIsExact(facts: Facts, now: int, t: int)
    requires now <= t
    ensures var next := NextFlush(facts, now);
            && (next.None? || t < next.value ==> ReasonsAt(facts, now, t) == Reasons(facts, now))
            && (next.Some? ==>
                  && now < next.value
                  && (forall r | r in Reasons(facts, now) :: r in ReasonsAt(facts, now, next.value))
                  && (exists r :: r in ReasonsAt(facts, now, next.value) && r !in Reasons(facts, now)))
  {
    var next := NextFlush(facts, now);
    hide ReasonsAmong, Candidates;
    if next.None? || t < next.value {
      forall r: Reason
        ensures Applies(r, facts, now) <==> Applies(r, Aged(facts, t - now), t)
      {
        ReasonsOnlyStartAtCandidates(r, facts, now, t);
      }
      SameApplicationsSameReasons(|REPORTED|, facts, now, Aged(facts, t - now), t);
    }
    if next.Some? {
      CandidateStartsAReason(facts, now, next.value);
      forall r | r in Reasons(facts, now) ensures r in ReasonsAt(facts, now, next.value) {
        ReasonsOnlyStartAtCandidates(r, facts, now, next.value);
      }
    }
  }

  lemma CandidateStartsAReason(facts: Facts, now: int, due: int)
    requires due in Candidates(facts, now)
    ensures now < due
    ensures exists r :: r in ReasonsAt(facts, now, due) && r !in Reasons(facts, now)
  {
    var later := ReasonsAt(facts, now, due);
    if Some(due) == CommitWarningAt(facts, now) {
      assert ActiveWithoutRecentCommit in later && ActiveWithoutRecentCommit !in Reasons(facts, now);
    } else if Some(due) == FutureDueFromAge(now, facts.oldestStagedBlobAgeMs, STAGED_BLOB_STALE_MS) {
      assert StagedBlobStale in later && StagedBlobStale !in Reasons(facts, now);
    } else {
      assert PendingDeleteStale in later && PendingDeleteStale !in Reasons(facts, now);
    }
  }

  /** Follows the schedule through n flushes; None once nothing is scheduled. */
  function FlushTime(facts: Facts, now: int, n: nat): Option<int>
    decreases n
  {
    if n == 0 then Some(now)
    else
      var next := NextFlush(facts, now);
      if next.None? then None else FlushTime(Aged(facts, next.value - now), next.value, n - 1)
  }

  /** Time-based reasons that are still to come. */
  function StillToCome(facts: Facts, now: int): nat {
    |Candidates(facts, now)|
  }

  lemma EveryFlushUsesUpACandidate(facts: Facts, now: int)
    requires NextFlush(facts, now).Some?
    ensures var next := NextFlush(facts, now).value;
            StillToCome(Aged(facts, next - now), next) < StillToCome(facts, now)
  {
    var due := NextFlush(facts, now).value;
    assert Some(due) == CommitWarningAt(facts, now)
        || Some(due) == FutureDueFromAge(now, facts.oldestStagedBlobAgeMs, STAGED_BLOB_STALE_MS)
        || Some(due) == FutureDueFromAge(now, facts.oldestPendingDeleteAgeMs, PENDING_DELETE_STALE_MS) by {
      assert due in Candidates(facts, now);
    }
  }

  lemma {:induction false} ScheduleEnds(facts: Facts, now: int, n: nat)
    requires StillToCome(facts, now) < n
    ensures FlushTime(facts, now, n).None?
    decreases n
  {
    var next := NextFlush(facts, now);
    hide NextFlush, Aged, Candidates;
    if next.Some? {
      EveryFlushUsesUpACandidate(facts, now);
      ScheduleEnds(Aged(facts, next.value - now), next.value, n - 1);
    }
  }

  /** Flushes never reschedule for ever: at most three are due before the schedule is empty. */
  lemma AtMostThreeFlushes(facts: Facts, now: int)
    ensures FlushTime(facts, now, 4).None?
  {
    ScheduleEnds(facts, now, 4);
  }
}
