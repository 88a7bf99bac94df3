/** The server's optimistic-concurrency decision for one entry, and every run of submissions to it. */
module EntryPolicy {
  import opened Wrappers

  type MutationId = nat
  type BlobId = string

  datatype Op = Upsert | Delete

  datatype CaptureReason = Auto | BeforeDelete | BeforeRestore | Manual

  const AUTO_ENTRY_VERSION_BUCKET_MS: int := 5 * 60 * 1000

  datatype Current = Current(revision: nat, lastMutationId: Option<MutationId>)

  datatype Decision =
    | Idempotent
    | StaleRevision(expectedBaseRevision: nat, receivedBaseRevision: int)
    | Apply(previousRevision: nat, revision: nat, nextBlobId: Option<BlobId>, nextDeleted: bool,
            forcedHistoryBefore: Option<CaptureReason>, autoVersionBucketStart: Option<int>)

  function DecideEntryMutation(current: Option<Current>, mutationId: MutationId, baseRevision: int, op: Op,
                               blobId: Option<BlobId>, forcedHistoryBefore: Option<CaptureReason>, now: int): Decision
  {
    if current.Some? && current.value.lastMutationId == Some(mutationId) then Idempotent
    else
      var previousRevision := if current.Some? then current.value.revision else 0;
      if previousRevision != baseRevision then StaleRevision(previousRevision, baseRevision)
      else
        var forced := if op.Delete? then Some(BeforeDelete) else forcedHistoryBefore;
        var captureAuto := forced.None? && baseRevision > 0;
        Apply(previousRevision, previousRevision + 1, if op.Delete? then None else blobId, op.Delete?, forced,
              if captureAuto then Some(now / AUTO_ENTRY_VERSION_BUCKET_MS * AUTO_ENTRY_VERSION_BUCKET_MS) else None)
  }

  datatype PurgeDecision = NotFound | NotDeleted | StalePurge(expectedRevision: nat) | NoHistory | PurgeAccepted

  function DecideDeletedEntryPurge(current: Option<(nat, bool)>, receivedRevision: int,
                                   hasRestorableHistory: bool): PurgeDecision
  {
    if current.None? then NotFound
    else if !current.value.1 then NotDeleted
    else if current.value.0 != receivedRevision then StalePurge(current.value.0)
    else if !hasRestorableHistory then NoHistory
    else PurgeAccepted
  }

  /** The history a commit keeps is exactly one of: nothing for a first version, a forced copy of
      what it replaces, or an automatic copy filed under the five-minute bucket that holds `now`. A
      delete always forces one; an upsert is forced exactly if its caller, a restore say, asks for it. */
  lemma HistoryIsCapturedOnce(current: Option<Current>, mutationId: MutationId, baseRevision: int, op: Op,
                              blobId: Option<BlobId>, forced: Option<CaptureReason>, now: int)
    ensures var d := DecideEntryMutation(current, mutationId, baseRevision, op, blobId, forced, now);
            d.Apply? ==>
              && (d.autoVersionBucketStart.Some? <==> d.forcedHistoryBefore.None? && d.previousRevision > 0)
              && (op.Delete? ==> d.forcedHistoryBefore == Some(BeforeDelete) && d.nextDeleted && d.nextBlobId.None?)
              && (op.Upsert? ==> d.forcedHistoryBefore == forced && !d.nextDeleted && d.nextBlobId == blobId)
              && (d.autoVersionBucketStart.Some? ==>
                    && d.autoVersionBucketStart.value <= now < d.autoVersionBucketStart.value + 300_000
                    && d.autoVersionBucketStart.value % 300_000 == 0)
  {
    var bucket := now / AUTO_ENTRY_VERSION_BUCKET_MS;
    assert now == bucket * AUTO_ENTRY_VERSION_BUCKET_MS + now % AUTO_ENTRY_VERSION_BUCKET_MS;
    assert bucket * AUTO_ENTRY_VERSION_BUCKET_MS % AUTO_ENTRY_VERSION_BUCKET_MS == 0;
  }

  /** An entry's history is purged exactly if the entry is deleted, still at the revision the caller
      saw, and has history to restore from; every other answer says which of these fails first. */
  lemma PurgeNeedsHistory(current: Option<(nat, bool)>, revision: int, hasHistory: bool)
    ensures var d := DecideDeletedEntryPurge(current, revision, hasHistory);
            && (d.PurgeAccepted? <==> current.Some? && current.value.1 && current.value.0 == revision && hasHistory)
            && (d.NotFound? <==> current.None?)
            && (d.NotDeleted? <==> current.Some? && !current.value.1)
            && (d.StalePurge? <==> current.Some? && current.value.1 && current.value.0 != revision)
            && (d.StalePurge? ==> d.expectedRevision == current.value.0)
  {
  }

  // ------------------------------------------------------ runs on one entry

  /** A submission by any client; `ready` says that its blob passed the availability checks. */
  datatype Submission = Submission(mutationId: MutationId, baseRevision: int, op: Op, blobId: Option<BlobId>, ready: bool)

  datatype Applied = Applied(mutationId: MutationId, baseRevision: int)

  /** One retained entry and the submissions it has applied, oldest first. */
  datatype History = History(entry: Option<Current>, applied: seq<Applied>)

  function Decide(h: History, s: Submission, now: int): Decision {
    DecideEntryMutation(h.entry, s.mutationId, s.baseRevision, s.op, s.blobId, None, now)
  }

  function Submit(h: History, s: Submission, now: int): History {
    var d := Decide(h, s, now);
    if d.Apply? && s.ready
    then History(Some(Current(d.revision, Some(s.mutationId))), h.applied + [Applied(s.mutationId, s.baseRevision)])
    else h
  }

  function SubmitAll(h: History, submissions: seq<(Submission, int)>): History
    decreases |submissions|
  {
    if submissions == [] then h
    else SubmitAll(Submit(h, submissions[0].0, submissions[0].1), submissions[1..])
  }

  const NEW_ENTRY: History := History(None, [])

  ghost predicate Inv(h: History) {
    && (forall i | 0 <= i < |h.applied| :: h.applied[i].baseRevision == i)
    && (h.entry.None? <==> h.applied == [])
    && (h.entry.Some? ==>
          && h.entry.value.revision == |h.applied|
          && h.entry.value.lastMutationId == Some(h.applied[|h.applied| - 1].mutationId))
  }

  lemma {:induction false} SubmitAllKeepsInv(h: History, submissions: seq<(Submission, int)>)
    requires Inv(h)
    ensures Inv(SubmitAll(h, submissions))
    ensures h.applied <= SubmitAll(h, submissions).applied
    decreases |submissions|
  {
    if submissions != [] {
      SubmitAllKeepsInv(Submit(h, submissions[0].0, submissions[0].1), submissions[1..]);
    }
  }

  /** The applied mutations form the unbroken chain of bases 0, 1, 2, ..., so no mutation is ever
      applied twice on the same base, whoever submits and resubmits it. */
  lemma AppliedAtMostOnce(submissions: seq<(Submission, int)>)
    ensures var applied := SubmitAll(NEW_ENTRY, submissions).applied;
            && (forall i | 0 <= i < |applied| :: applied[i].baseRevision == i)
            && (forall i, j | 0 <= i < j < |applied| :: applied[i] != applied[j])
  {
    SubmitAllKeepsInv(NEW_ENTRY, submissions);
  }

  /** Resubmitting the latest applied mutation changes nothing and is answered as accepted. */
  lemma LatestIsIdempotent(submissions: seq<(Submission, int)>, again: Submission, now: int)
    ensures var h := SubmitAll(NEW_ENTRY, submissions);
            h.applied != [] && again.mutationId == h.applied[|h.applied| - 1].mutationId
            ==> Decide(h, again, now).Idempotent? && Submit(h, again, now) == h
  {
    SubmitAllKeepsInv(NEW_ENTRY, submissions);
  }

  /** Resubmitting an applied mutation with its original base never applies it again: it is
      idempotent while it is the latest one and stale for ever after. */
  lemma OldSubmissionsNeverReapply(before: seq<(Submission, int)>, after: seq<(Submission, int)>, i: nat,
                                   again: Submission, now: int)
    ensures var h := SubmitAll(NEW_ENTRY, before);
            var later := SubmitAll(h, after);
            i < |h.applied| && again.mutationId == h.applied[i].mutationId && again.baseRevision == h.applied[i].baseRevision
            ==> Submit(later, again, now) == later
  {
    SubmitAllKeepsInv(NEW_ENTRY, before);
    SubmitAllKeepsInv(SubmitAll(NEW_ENTRY, before), after);
  }

  /** The base matters: a mutation id alone can be applied twice, on two different bases, once
      another mutation has come between. */
  lemma SameIdAppliesAgainOnANewBase()
    ensures var a, b := Submission(1, 0, Upsert, Some("x"), true), Submission(2, 1, Upsert, Some("y"), true);
            SubmitAll(NEW_ENTRY, [(a, 0), (b, 0), (a.(baseRevision := 2), 0)]).applied
            == [Applied(1, 0), Applied(2, 1), Applied(1, 2)]
  {
    var a, b := Submission(1, 0, Upsert, Some("x"), true), Submission(2, 1, Upsert, Some("y"), true);
    var h1 := Submit(NEW_ENTRY, a, 0);
    var h2 := Submit(h1, b, 0);
    var h3 := Submit(h2, a.(baseRevision := 2), 0);
    assert SubmitAll(h3, []) == h3;
    assert SubmitAll(h2, [(a.(baseRevision := 2), 0)]) == h3;
    assert [(b, 0), (a.(baseRevision := 2), 0)][1..] == [(a.(baseRevision := 2), 0)];
    assert SubmitAll(h1, [(b, 0), (a.(baseRevision := 2), 0)]) == h3;
    assert [(a, 0), (b, 0), (a.(baseRevision := 2), 0)][1..] == [(b, 0), (a.(baseRevision := 2), 0)];
  }

  /** A submission applies if and only if its blob is ready, it was made on the present revision and is
      not a resend of the mutation that produced it. */
  lemma AppliesExactlyOnTheCurrentBase(submissions: seq<(Submission, int)>, s: Submission, now: int)
    ensures var h := SubmitAll(NEW_ENTRY, submissions);
            Submit(h, s, now) != h <==>
              && s.ready && s.baseRevision == |h.applied|
              && (h.applied == [] || h.applied[|h.applied| - 1].mutationId != s.mutationId)
  {
    SubmitAllKeepsInv(NEW_ENTRY, submissions);
    var h := SubmitAll(NEW_ENTRY, submissions);
    assert |Submit(h, s, now).applied| > |h.applied| || Submit(h, s, now) == h;
  }
}
