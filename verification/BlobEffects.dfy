/** What each step of the ledger does to blobs, entries and history, with the constants written out:
    when it does anything, what it writes, and that every other row stays as it was. */
module BlobEffects {
  import opened Wrappers
  import opened EntryPolicy
  import opened BlobPolicy
  import opened BlobLedger

  /** A current entry has the blob, or a kept version that has not expired by then. */
  ghost predicate Referenced(l: Ledger, b: BlobId, asOf: int) {
    || (exists e | e in l.entries :: l.entries[e].blobId == Some(b))
    || (exists v: VersionId | v in l.versions :: l.versions[v].blobId == Some(b) && asOf < l.versions[v].expiresAt)
  }

  /** The present time, for a step that was started at `asOf` or later. */
  function Since(l: Ledger, asOf: int): int {
    if asOf < l.now then asOf else l.now
  }

  /** A blob is staged exactly if it fits and is new within the quota, or known, unreferenced and of the
      same size; its grace period starts anew. The vault pauses exactly for a referenced blob that has
      been staged for an hour. */
  lemma StagesExactly(l: Ledger, b: BlobId, size: nat)
    requires l.usedBytes >= 0
    ensures var after := BlobLedger.Apply(l, Stage(b, size));
            var known := b in l.blobs;
            var limit, most := l.settings.storageLimitBytes, l.settings.maxFileSizeBytes;
            var stages := && !l.paused && (most == 0 || size <= most)
                          && if known then !Referenced(l, b, l.now) && l.blobs[b].sizeBytes == size
                             else limit == 0 || l.usedBytes + size <= limit;
            var pauses := && !l.paused && known && Referenced(l, b, l.now) && l.blobs[b].state == Staged
                          && l.blobs[b].createdAt + 3_600_000 <= l.now;
            after == if stages
                     then l.(blobs := l.blobs[b := BlobRow(Staged, size, if known then l.blobs[b].createdAt else l.now, l.now,
                                                           Some(l.now + l.settings.gracePeriodMs))],
                             usedBytes := if known then l.usedBytes else l.usedBytes + size)
                     else if pauses then l.(paused := true)
                     else l
  {
    assert Referenced(l, b, l.now) == Pinned(l, b, l.now);
  }

  // ----------------------------------------------------------------- commits

  /** The revision an entry is at; a new one is at none. */
  function RevisionOf(l: Ledger, e: EntryId): nat {
    if e in l.entries then l.entries[e].revision else 0
  }

  /** The history an applied mutation adds: a forced copy of what it replaces, or an automatic copy of what
      it writes, the first in its five minutes. */
  function NewVersion(l: Ledger, m: Mutation, forced: Option<CaptureReason>): Option<VersionRow> {
    var reason := if m.op.Delete? then Some(BeforeDelete) else forced;
    var bucket := l.now / 300_000 * 300_000;
    if reason.Some? then
      if m.entryId !in l.entries then None
      else
        Some(VersionRow(m.entryId, l.entries[m.entryId].blobId, if l.entries[m.entryId].deleted then Delete else Upsert,
                        reason.value, None, l.now + l.settings.retentionMs))
    else if m.baseRevision > 0
            && !exists v | v in l.versions ::
                  l.versions[v].entryId == m.entryId && l.versions[v].reason == Auto && l.versions[v].bucketStart == Some(bucket)
      then Some(VersionRow(m.entryId, if m.op.Delete? then None else m.blobId, m.op, Auto, Some(bucket),
                           l.now + l.settings.retentionMs))
    else None
  }

  /** A mutation that is the entry's latest is accepted again without effect; one on another revision is
      stale; one whose blob is missing is refused; any other is applied. */
  lemma AnswersExactly(l: Ledger, m: Mutation, unavailable: set<BlobId>, forced: Option<CaptureReason>)
    ensures var (after, outcome) := CommitOne(l, m, unavailable, forced);
            var next := if m.op.Delete? then None else m.blobId;
            outcome == if m.entryId in l.entries && l.entries[m.entryId].lastMutationId == m.mutationId
                       then BlobLedger.Accepted(l.entries[m.entryId].revision)
                       else if RevisionOf(l, m.entryId) != m.baseRevision then RejectedAsStale
                       else if next.Some? && next.value in unavailable then BlobNotFound
                       else if next.Some? && next.value !in l.blobs then BlobNotStaged
                       else BlobLedger.Accepted(RevisionOf(l, m.entryId) + 1)
    ensures var (after, outcome) := CommitOne(l, m, unavailable, forced);
            after != l ==> outcome == BlobLedger.Accepted(RevisionOf(l, m.entryId) + 1)
  {
    hide ApplyMutation;
  }

  /** The mutation is applied: it is new, made on the entry's revision, and its blob is at hand. */
  predicate Applies(l: Ledger, m: Mutation, unavailable: set<BlobId>) {
    && (m.entryId in l.entries ==> l.entries[m.entryId].lastMutationId != m.mutationId)
    && RevisionOf(l, m.entryId) == m.baseRevision
    && (m.op.Upsert? && m.blobId.Some? ==> m.blobId.value in l.blobs && m.blobId.value !in unavailable)
  }

  lemma DecidesToApply(l: Ledger, m: Mutation, unavailable: set<BlobId>, forced: Option<CaptureReason>)
    requires Applies(l, m, unavailable)
    ensures var d := DecisionFor(l, m, forced);
            && d.Apply? && d.revision == RevisionOf(l, m.entryId) + 1 && d.nextDeleted == m.op.Delete?
            && d.nextBlobId == (if m.op.Delete? then None else m.blobId)
            && d.forcedHistoryBefore == (if m.op.Delete? then Some(BeforeDelete) else forced)
            && d.autoVersionBucketStart == (if m.op.Delete? || forced.Some? || m.baseRevision <= 0 then None
                                            else Some(l.now / 300_000 * 300_000))
            && CommitOne(l, m, unavailable, forced).0 == ApplyMutation(l, m, d)
  {
    hide ApplyMutation;
  }

  /** What the writes that keep history leave alone, and the others. */
  lemma OnlyHistory(l: Ledger, m: Mutation, d: Decision)
    requires d.Apply?
    ensures KeepReplaced(l, m, d)
         == l.(versions := KeepReplaced(l, m, d).versions, nextVersion := KeepReplaced(l, m, d).nextVersion)
    ensures KeepAuto(l, m, d) == l.(versions := KeepAuto(l, m, d).versions, nextVersion := KeepAuto(l, m, d).nextVersion)
  {
  }

  lemma OnlyBlobs(l: Ledger, replaced: Option<BlobId>, next: Option<BlobId>)
    ensures Reserve(l, next) == l.(blobs := Reserve(l, next).blobs)
    ensures MakeLive(l, next) == l.(blobs := MakeLive(l, next).blobs)
    ensures RetireReplaced(l, replaced, next) == l.(blobs := RetireReplaced(l, replaced, next).blobs)
  {
    hide HasCurrent;
  }

  /** The blobs once the new one is live and the replaced one is put up for collection. */
  lemma BlobsAfter(l: Ledger, replaced: Option<BlobId>, next: Option<BlobId>, entries: map<EntryId, EntryRow>)
    requires next.Some? ==> next.value in l.blobs
    ensures var live := MakeLive(Reserve(l, next).(entries := entries), next);
            var after := RetireReplaced(live, replaced, next).blobs;
            && after.Keys == l.blobs.Keys
            && forall b | b in l.blobs ::
                 after[b]
                 == if next == Some(b) then l.blobs[b].(state := Live, deleteAfter := None)
                    else if replaced == Some(b) && !(exists e | e in entries :: entries[e].blobId == Some(b))
                    then l.blobs[b].(state := PendingDelete, deleteAfter := Some(l.now))
                    else l.blobs[b]
  {
    var live := MakeLive(Reserve(l, next).(entries := entries), next);
    LiveBlobs(l, next, entries);
    hide MakeLive, Reserve;
    RetiredBlobs(live, replaced, next);
    hide RetireReplaced;
  }

  lemma RetiredBlobs(live: Ledger, replaced: Option<BlobId>, next: Option<BlobId>)
    ensures RetireReplaced(live, replaced, next).blobs
         == if replaced.None? || replaced == next || replaced.value !in live.blobs
               || exists e | e in live.entries :: live.entries[e].blobId == replaced
            then live.blobs
            else live.blobs[replaced.value := live.blobs[replaced.value].(state := PendingDelete, deleteAfter := Some(live.now))]
  {
    if replaced.Some? {
      assert HasCurrent(live, replaced.value) == exists e | e in live.entries :: live.entries[e].blobId == replaced;
    }
    hide HasCurrent;
  }

  lemma LiveBlobs(l: Ledger, next: Option<BlobId>, entries: map<EntryId, EntryRow>)
    requires next.Some? ==> next.value in l.blobs
    ensures var live := MakeLive(Reserve(l, next).(entries := entries), next);
            && live == l.(entries := entries, blobs := live.blobs)
            && live.blobs == if next.Some? then l.blobs[next.value := l.blobs[next.value].(state := Live, deleteAfter := None)]
                             else l.blobs
  {
  }

  /** An applied mutation writes its entry at the next revision, makes its blob live for good, and puts the
      blob it replaced, unless another entry has it, up for collection now. No other entry or blob changes. */
  lemma MutatesExactly(l: Ledger, m: Mutation, unavailable: set<BlobId>, forced: Option<CaptureReason>)
    requires Applies(l, m, unavailable)
    ensures var after := CommitOne(l, m, unavailable, forced).0;
            var next := if m.op.Delete? then None else m.blobId;
            var replaced := if m.entryId in l.entries then l.entries[m.entryId].blobId else None;
            && after.entries == l.entries[m.entryId := EntryRow(RevisionOf(l, m.entryId) + 1, next, m.op.Delete?, m.mutationId)]
            && after.blobs.Keys == l.blobs.Keys
            && (forall b | b in l.blobs ::
                  after.blobs[b]
                  == if next == Some(b) then l.blobs[b].(state := Live, deleteAfter := None)
                     else if replaced == Some(b) && !(exists e | e in after.entries :: after.entries[e].blobId == Some(b))
                     then l.blobs[b].(state := PendingDelete, deleteAfter := Some(l.now))
                     else l.blobs[b])
            && after == l.(entries := after.entries, blobs := after.blobs, versions := after.versions,
                           nextVersion := after.nextVersion)
  {
    DecidesToApply(l, m, unavailable, forced);
    var d := DecisionFor(l, m, forced);
    var next := d.nextBlobId;
    var replaced := if m.entryId in l.entries then l.entries[m.entryId].blobId else None;
    var reserved := Reserve(l, next);
    var kept := KeepReplaced(reserved, m, d);
    var written := WithEntry(kept, m, d);
    var filed := KeepAuto(written, m, d);
    OnlyHistory(reserved, m, d);
    OnlyHistory(written, m, d);
    OnlyBlobs(l, replaced, next);
    OnlyBlobs(filed, replaced, next);
    OnlyBlobs(MakeLive(filed, next), replaced, next);
    BlobsAfter(l, replaced, next, written.entries);
    SameBlobs(filed, reserved.(entries := written.entries), replaced, next);
    hide *;
    AppliedInTurn(l, m, d);
  }

  lemma AppliedInTurn(l: Ledger, m: Mutation, d: Decision)
    requires d.Apply?
    ensures var replaced := if m.entryId in l.entries then l.entries[m.entryId].blobId else None;
            var kept := KeepReplaced(Reserve(l, d.nextBlobId), m, d);
            && ApplyMutation(l, m, d)
               == RetireReplaced(MakeLive(KeepAuto(WithEntry(kept, m, d), m, d), d.nextBlobId), replaced, d.nextBlobId)
            && WithEntry(kept, m, d)
               == kept.(entries := kept.entries[m.entryId := EntryRow(d.revision, d.nextBlobId, d.nextDeleted, m.mutationId)])
  {
    hide Reserve, KeepReplaced, KeepAuto, MakeLive, RetireReplaced;
  }

  lemma SameBlobs(l: Ledger, other: Ledger, replaced: Option<BlobId>, next: Option<BlobId>)
    requires l.blobs == other.blobs && l.entries == other.entries && l.now == other.now
    ensures RetireReplaced(MakeLive(l, next), replaced, next).blobs == RetireReplaced(MakeLive(other, next), replaced, next).blobs
  {
    assert forall b :: HasCurrent(MakeLive(l, next), b) == HasCurrent(MakeLive(other, next), b);
    hide HasCurrent;
  }

  /** ... and keeps the history it should, under a fresh identifier, and all that was kept before. */
  lemma KeepsExactly(l: Ledger, m: Mutation, unavailable: set<BlobId>, forced: Option<CaptureReason>)
    requires Applies(l, m, unavailable)
    ensures var after := CommitOne(l, m, unavailable, forced).0;
            var version := NewVersion(l, m, forced);
            && after.versions == (if version.Some? then l.versions[l.nextVersion := version.value] else l.versions)
            && after.nextVersion == (if version.Some? then l.nextVersion + 1 else l.nextVersion)
  {
    DecidesToApply(l, m, unavailable, forced);
    var d := DecisionFor(l, m, forced);
    var next := d.nextBlobId;
    var replaced := if m.entryId in l.entries then l.entries[m.entryId].blobId else None;
    var filed := KeepAuto(WithEntry(KeepReplaced(Reserve(l, next), m, d), m, d), m, d);
    OnlyBlobs(l, replaced, next);
    OnlyBlobs(filed, replaced, next);
    OnlyBlobs(MakeLive(filed, next), replaced, next);
    HistoryAfter(l, Reserve(l, next), m, d, forced);
    hide *;
    AppliedInTurn(l, m, d);
  }

  lemma HistoryAfter(l: Ledger, reserved: Ledger, m: Mutation, d: Decision, forced: Option<CaptureReason>)
    requires d.Apply? && reserved == l.(blobs := reserved.blobs)
    requires d.nextBlobId == (if m.op.Delete? then None else m.blobId)
    requires d.forcedHistoryBefore == (if m.op.Delete? then Some(BeforeDelete) else forced)
    requires d.autoVersionBucketStart == (if m.op.Delete? || forced.Some? || m.baseRevision <= 0 then None
                                          else Some(l.now / 300_000 * 300_000))
    ensures var filed := KeepAuto(WithEntry(KeepReplaced(reserved, m, d), m, d), m, d);
            var version := NewVersion(l, m, forced);
            && filed.versions == (if version.Some? then l.versions[l.nextVersion := version.value] else l.versions)
            && filed.nextVersion == (if version.Some? then l.nextVersion + 1 else l.nextVersion)
  {
  }

  /** A batch is committed in order; a mutation whose identifier came earlier in it is only reported. */
  lemma CommitsInOrder(l: Ledger, m: Mutation, rest: seq<Mutation>, seen: set<MutationId>, unavailable: set<BlobId>,
                       forced: Option<CaptureReason>)
    ensures CommitAll(l, [], seen, unavailable, forced) == (l, [])
    ensures var (next, outcome) := if m.mutationId in seen then (l, DuplicateMutationId) else CommitOne(l, m, unavailable, forced);
            var (last, outcomes) := CommitAll(next, rest, seen + {m.mutationId}, unavailable, forced);
            CommitAll(l, [m] + rest, seen, unavailable, forced) == (last, [outcome] + outcomes)
  {
    hide CommitOne;
    assert ([m] + rest)[1..] == rest;
  }

  // ------------------------------------------------- release, history, collection

  function Less(used: int, bytes: int): int {
    if used < bytes then 0 else used - bytes
  }

  lemma ReleasesExactly(l: Ledger, b: BlobId, asOf: int)
    ensures var releases := b in l.blobs && l.blobs[b].state == Staged && !Referenced(l, b, Since(l, asOf));
            BlobLedger.Apply(l, Release(b, asOf))
            == if releases then l.(blobs := l.blobs - {b}, usedBytes := Less(l.usedBytes, l.blobs[b].sizeBytes)) else l
  {
    assert Referenced(l, b, Since(l, asOf)) == Pinned(l, b, Since(l, asOf));
    WithoutOneBlob(l, b);
  }

  lemma WithoutOneBlob(l: Ledger, b: BlobId)
    ensures WithoutBlobs(l, {b})
         == l.(blobs := l.blobs - {b}, usedBytes := Less(l.usedBytes, if b in l.blobs then l.blobs[b].sizeBytes else 0))
  {
    StoredSplit(l.blobs, {b});
    if b in l.blobs {
      StoredWithout(l.blobs, b);
    } else {
      assert l.blobs - {b} == l.blobs;
    }
  }

  /** A blob is retired exactly if it is past staging and unreferenced, at once or at its earlier deadline. */
  lemma RetiresExactly(l: Ledger, b: BlobId, asOf: int)
    ensures var at := Since(l, asOf);
            var retires := b in l.blobs && l.blobs[b].state != Staged && !Referenced(l, b, at);
            BlobLedger.Apply(l, Retire(b, asOf))
            == if !retires then l
               else
                 var deadline := if l.blobs[b].deleteAfter.Some? && l.blobs[b].deleteAfter.value < at
                                 then l.blobs[b].deleteAfter.value else at;
                 l.(blobs := l.blobs[b := l.blobs[b].(state := PendingDelete, deleteAfter := Some(deadline))])
  {
    assert Referenced(l, b, Since(l, asOf)) == Pinned(l, b, Since(l, asOf));
  }

  /** A purge happens exactly for a deleted entry, at the revision the caller saw, that has an unexpired
      version with content; it drops every version of that entry and no other. */
  lemma PurgesExactly(l: Ledger, e: EntryId, revision: int, asOf: int)
    ensures var after := BlobLedger.Apply(l, Purge(e, revision, asOf));
            var purges := && !l.paused && e in l.entries && l.entries[e].deleted && l.entries[e].revision == revision
                          && exists v | v in l.versions ::
                               l.versions[v].entryId == e && l.versions[v].op == Upsert && l.versions[v].blobId.Some?
                               && Since(l, asOf) < l.versions[v].expiresAt;
            && (!purges ==> after == l)
            && (purges ==>
                  && after == l.(versions := after.versions)
                  && (forall v :: v in after.versions <==> v in l.versions && l.versions[v].entryId != e)
                  && (forall v | v in after.versions :: after.versions[v] == l.versions[v]))
  {
  }

  /** Expiry drops exactly the versions whose time has come. */
  lemma ExpiresExactly(l: Ledger, asOf: int)
    ensures var after := BlobLedger.Apply(l, Expire(asOf));
            && after == l.(versions := after.versions)
            && (forall v :: v in after.versions <==> v in l.versions && Since(l, asOf) < l.versions[v].expiresAt)
            && (forall v | v in after.versions :: after.versions[v] == l.versions[v])
  {
  }

  /** Of the blobs it is given, a collection removes exactly those that are not live, whose deadline has
      come and that nothing refers to, and uncounts their bytes. */
  lemma CollectsExactly(l: Ledger, blobIds: set<BlobId>, asOf: int)
    ensures var after := BlobLedger.Apply(l, Collect(blobIds, asOf));
            && after == l.(blobs := after.blobs, usedBytes := after.usedBytes)
            && (forall b :: b in after.blobs <==>
                  b in l.blobs && !(b in blobIds && l.blobs[b].state != Live && l.blobs[b].deleteAfter.Some?
                                    && l.blobs[b].deleteAfter.value <= Since(l, asOf) && !Referenced(l, b, Since(l, asOf))))
            && (forall b | b in after.blobs :: after.blobs[b] == l.blobs[b])
            && after.usedBytes == Less(l.usedBytes, StoredBytes(l.blobs) - StoredBytes(after.blobs))
  {
    var at := Since(l, asOf);
    var gone := set b | b in blobIds && CollectibleRow(l, b, at);
    CollectibleIs(l, at);
    StoredSplit(l.blobs, gone);
    hide CollectibleRow, Referenced, StoredBytes;
  }

  lemma CollectibleIs(l: Ledger, at: int)
    ensures forall b :: CollectibleRow(l, b, at) <==>
              b in l.blobs && l.blobs[b].state != Live && l.blobs[b].deleteAfter.Some? && l.blobs[b].deleteAfter.value <= at
              && !Referenced(l, b, at)
  {
  }

  /** A deletion is allowed exactly for a recorded blob that is unreferenced then; the record goes when the
      deletion comes to it, whatever has happened since. */
  lemma DeletesExactly(l: Ledger, b: BlobId)
    ensures BlobLedger.Apply(l, CheckDelete(b))
         == if !l.paused && b in l.blobs && !Referenced(l, b, l.now) then l.(checked := l.checked + multiset{b}) else l
    ensures BlobLedger.Apply(l, DeleteRecord(b))
         == if b !in l.checked then l
            else if b !in l.blobs then l.(checked := l.checked - multiset{b}, usedBytes := Less(l.usedBytes, 0))
            else l.(checked := l.checked - multiset{b}, blobs := l.blobs - {b},
                    usedBytes := Less(l.usedBytes, l.blobs[b].sizeBytes))
  {
    assert Referenced(l, b, l.now) == Pinned(l, b, l.now);
    WithoutOneBlob(l.(checked := l.checked - multiset{b}), b);
    if b !in l.blobs {
      assert l.blobs - {b} == l.blobs;
    }
  }
}
