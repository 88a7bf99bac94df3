/** When a blob may be staged, retired and collected, and when collection is next due. */
module BlobPolicy {
  import opened Wrappers
  import opened Numbers

  datatype BlobState = Staged | Live | PendingDelete

  datatype ExistingBlob = ExistingBlob(state: BlobState, sizeBytes: nat, createdAt: int)

  datatype StageDecision =
    | SyncPaused
    | FileTooLarge
    | BlobAlreadyLive
    | BlobSizeChanged(previousSizeBytes: nat)
    | QuotaExceeded(usedBytes: int)
    | StagedWith(storageDeltaBytes: nat)

  function DecideBlobStage(sizeBytes: nat, now: int, staleAfterMs: int, existing: Option<ExistingBlob>, isPinned: bool,
                           storageUsedBytes: int, storageLimitBytes: int, maxFileSizeBytes: int): StageDecision
  {
    if isPinned && existing.Some? && existing.value.state.Staged? && now - existing.value.createdAt >= staleAfterMs then
      SyncPaused
    else if maxFileSizeBytes > 0 && sizeBytes > maxFileSizeBytes then FileTooLarge
    else if existing.Some? && isPinned then BlobAlreadyLive
    else if existing.Some? && existing.value.sizeBytes != sizeBytes then BlobSizeChanged(existing.value.sizeBytes)
    else if existing.None? && storageLimitBytes > 0 && storageUsedBytes + sizeBytes > storageLimitBytes then
      QuotaExceeded(storageUsedBytes)
    else StagedWith(if existing.Some? then 0 else sizeBytes)
  }

  /** A blob is staged exactly if it fits the file limit and is either new, within the quota, or known,
      unpinned and of the same size; only a new one counts against the storage. Sync pauses exactly for
      a pinned blob that has been staged for too long. */
  lemma StagedExactly(size: nat, now: int, staleAfterMs: int, existing: Option<ExistingBlob>, isPinned: bool, used: int,
                      limit: int, maxFileSize: int)
    ensures var d := DecideBlobStage(size, now, staleAfterMs, existing, isPinned, used, limit, maxFileSize);
            var fits := maxFileSize <= 0 || size <= maxFileSize;
            var paused := existing.Some? && isPinned && existing.value.state.Staged?
                          && existing.value.createdAt + staleAfterMs <= now;
            && (d.SyncPaused? <==> paused)
            && (d.FileTooLarge? <==> !paused && !fits)
            && (d.StagedWith? <==>
                  fits && if existing.None? then limit <= 0 || used + size <= limit
                          else !isPinned && existing.value.sizeBytes == size)
            && (d.StagedWith? ==> d.storageDeltaBytes == if existing.None? then size else 0)
            && (d.BlobAlreadyLive? <==> !paused && fits && existing.Some? && isPinned)
            && (d.BlobSizeChanged? <==> fits && existing.Some? && !isPinned && existing.value.sizeBytes != size)
            && (d.BlobSizeChanged? ==> d.previousSizeBytes == existing.value.sizeBytes)
            && (d.QuotaExceeded? <==> fits && existing.None? && limit > 0 && used + size > limit)
            && (d.QuotaExceeded? ==> d.usedBytes == used)
  {
  }

  datatype CollectionFacts = CollectionFacts(state: BlobState, deleteAfter: Option<int>, hasCurrentReference: bool,
                                             hasRetainedHistory: bool)

  datatype CollectionDecision = Collectible | RetainedLive | GracePeriod | CurrentReference | RetainedHistory | MissingDeadline

  function DecideBlobCollection(facts: CollectionFacts, now: int): CollectionDecision {
    if facts.state.Live? then RetainedLive
    else if facts.deleteAfter.None? then MissingDeadline
    else if facts.deleteAfter.value > now then GracePeriod
    else if facts.hasCurrentReference then CurrentReference
    else if facts.hasRetainedHistory then RetainedHistory
    else Collectible
  }

  datatype PendingDeleteDecision = MarkPendingDelete(deleteAfter: int) | Retain

  function DecidePendingDelete(facts: CollectionFacts, now: int): PendingDeleteDecision {
    if facts.state.Staged? || facts.hasCurrentReference || facts.hasRetainedHistory then Retain
    else MarkPendingDelete(if facts.deleteAfter.None? then now else Min(facts.deleteAfter.value, now))
  }

  /** A blob is marked for deletion exactly if it is past staging and nothing refers to it; its deadline
      becomes now, unless it already had an earlier one. */
  lemma MarkedExactly(facts: CollectionFacts, now: int)
    ensures var d := DecidePendingDelete(facts, now);
            && (d.MarkPendingDelete? <==> !facts.state.Staged? && !facts.hasCurrentReference && !facts.hasRetainedHistory)
            && (d.MarkPendingDelete? ==>
                  && d.deleteAfter <= now && (facts.deleteAfter.Some? ==> d.deleteAfter <= facts.deleteAfter.value)
                  && (d.deleteAfter == now || facts.deleteAfter == Some(d.deleteAfter)))
  {
  }

  /** A blob is collected exactly if it is not live, its deadline has come and nothing refers to it. */
  lemma CollectedExactly(facts: CollectionFacts, now: int)
    ensures DecideBlobCollection(facts, now).Collectible? <==>
              && !facts.state.Live? && facts.deleteAfter.Some? && facts.deleteAfter.value <= now
              && !facts.hasCurrentReference && !facts.hasRetainedHistory
  {
  }

  /** The earliest of some deadlines, none of them answered as earlier than now. */
  function EarliestGcDeadline(deadlines: seq<int>, now: int): (due: Option<int>)
    ensures due.None? <==> deadlines == []
    ensures due.Some? ==> due.value >= now && (forall d | d in deadlines :: due.value <= d || due.value == now)
    ensures due.Some? && due.value > now ==> due.value in deadlines
  {
    if deadlines == [] then None
    else
      assert deadlines == [deadlines[0]] + deadlines[1..];
      var rest := EarliestGcDeadline(deadlines[1..], now);
      var first := if deadlines[0] <= now then now else deadlines[0];
      Some(if rest.Some? then Min(first, rest.value) else first)
  }

  /** A blob becomes collectible as soon as nothing holds it: marking it pending never postpones
      its deadline, and the marked blob is collectible at once. */
  lemma MarkedIsCollectible(facts: CollectionFacts, now: int)
    requires DecidePendingDelete(facts, now).MarkPendingDelete?
    ensures var due := DecidePendingDelete(facts, now).deleteAfter;
            && due <= now && (facts.deleteAfter.Some? ==> due <= facts.deleteAfter.value)
            && DecideBlobCollection(facts.(state := PendingDelete, deleteAfter := Some(due)), now).Collectible?
  {
  }
}
