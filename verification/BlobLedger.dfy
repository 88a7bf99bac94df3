/** The coordinator's blobs, entries and history under any run of staging, commits, releases,
    purges, expiry and collection: what is stored is what is counted, and nothing still
    referenced is removed. */
module BlobLedger {
  import opened Wrappers
  import opened Numbers
  import Health
  import opened EntryPolicy
  import opened BlobPolicy

  type EntryId = string
  type VersionId = nat

  datatype BlobRow = BlobRow(state: BlobState, sizeBytes: nat, createdAt: int, lastUploadedAt: int, deleteAfter: Option<int>)

  datatype EntryRow = EntryRow(revision: nat, blobId: Option<BlobId>, deleted: bool, lastMutationId: MutationId)

  datatype VersionRow = VersionRow(entryId: EntryId, blobId: Option<BlobId>, op: Op, reason: CaptureReason,
                                   bucketStart: Option<int>, expiresAt: int)

  datatype Settings = Settings(storageLimitBytes: nat, maxFileSizeBytes: nat, gracePeriodMs: int, retentionMs: int)

  /** `checked` holds the deletions under way: allowed, the record not yet deleted. There may be several
      of one blob. */
  datatype Ledger = Ledger(settings: Settings, now: int, blobs: map<BlobId, BlobRow>, entries: map<EntryId, EntryRow>,
                           versions: map<VersionId, VersionRow>, nextVersion: VersionId, usedBytes: int, paused: bool,
                           checked: multiset<BlobId>)

  datatype Mutation = Mutation(mutationId: MutationId, entryId: EntryId, baseRevision: int, op: Op, blobId: Option<BlobId>)

  datatype Outcome = Accepted(revision: nat) | DuplicateMutationId | RejectedAsStale | BlobNotFound | BlobNotStaged

  datatype Step =
    | Tick(ms: nat)
    | Stage(blobId: BlobId, sizeBytes: nat)
    | Commit(mutations: seq<Mutation>, unavailable: set<BlobId>, forced: Option<CaptureReason>)
    | Release(releasedBlobId: BlobId, releaseAsOf: int)
    | Purge(entryId: EntryId, revision: int, purgeAsOf: int)
    | Retire(retiredBlobId: BlobId, retireAsOf: int)
    | Expire(expireAsOf: int)
    | Collect(blobIds: set<BlobId>, collectAsOf: int)
    | CheckDelete(checkedBlobId: BlobId)
    | DeleteRecord(deletedBlobId: BlobId)

  function Empty(settings: Settings, now: int): Ledger {
    Ledger(settings, now, map[], map[], map[], 0, 0, false, multiset{})
  }

  // -------------------------------------------------------------- references

  ghost predicate HasCurrent(l: Ledger, b: BlobId) {
    exists e | e in l.entries :: l.entries[e].blobId == Some(b)
  }

  ghost predicate HasHistory(l: Ledger, b: BlobId, now: int) {
    exists v: VersionId | v in l.versions :: l.versions[v].blobId == Some(b) && l.versions[v].expiresAt > now
  }

  ghost predicate Pinned(l: Ledger, b: BlobId, now: int) {
    HasCurrent(l, b) || HasHistory(l, b, now)
  }

  ghost function Facts(l: Ledger, b: BlobId, now: int): CollectionFacts
    requires b in l.blobs
  {
    CollectionFacts(l.blobs[b].state, l.blobs[b].deleteAfter, HasCurrent(l, b), HasHistory(l, b, now))
  }

  /** The guard the collection statement carries, as it is written in SQL. */
  ghost predicate CollectibleRow(l: Ledger, b: BlobId, now: int) {
    && b in l.blobs
    && l.blobs[b].state in {Staged, PendingDelete}
    && l.blobs[b].deleteAfter.Some? && l.blobs[b].deleteAfter.value <= now
    && !HasCurrent(l, b) && !HasHistory(l, b, now)
  }

  /** Bytes held by the recorded blobs. */
  ghost function StoredBytes(blobs: map<BlobId, BlobRow>): nat
    decreases |blobs|
  {
    if blobs == map[] then 0
    else
      var b :| b in blobs;
      blobs[b].sizeBytes + StoredBytes(blobs - {b})
  }

  // ------------------------------------------------------------------- steps

  function WithBlobState(blobs: map<BlobId, BlobRow>, b: BlobId, state: BlobState, deleteAfter: Option<int>): map<BlobId, BlobRow> {
    if b in blobs then blobs[b := blobs[b].(state := state, deleteAfter := deleteAfter)] else blobs
  }

  function Adjusted(usedBytes: int, delta: int): int {
    if usedBytes + delta < 0 then 0 else usedBytes + delta
  }

  ghost function StageDecisionFor(l: Ledger, b: BlobId, sizeBytes: nat): StageDecision {
    var existing := if b in l.blobs
                    then Some(ExistingBlob(l.blobs[b].state, l.blobs[b].sizeBytes, l.blobs[b].createdAt)) else None;
    DecideBlobStage(sizeBytes, l.now, Health.STAGED_BLOB_STALE_MS, existing, b in l.blobs && Pinned(l, b, l.now), l.usedBytes,
                    l.settings.storageLimitBytes, l.settings.maxFileSizeBytes)
  }

  ghost function ApplyStage(l: Ledger, b: BlobId, sizeBytes: nat): Ledger {
    if l.paused then l
    else
      match StageDecisionFor(l, b, sizeBytes)
      case SyncPaused => l.(paused := true)
      case StagedWith(delta) =>
        var deleteAfter := Some(l.now + l.settings.gracePeriodMs);
        var row := if b in l.blobs
                   then l.blobs[b].(state := Staged, lastUploadedAt := l.now, deleteAfter := deleteAfter)
                   else BlobRow(Staged, sizeBytes, l.now, l.now, deleteAfter);
        l.(blobs := l.blobs[b := row], usedBytes := if delta > 0 then Adjusted(l.usedBytes, delta) else l.usedBytes)
      case _ => l
  }

  predicate BucketTaken(l: Ledger, e: EntryId, bucketStart: int) {
    exists v | v in l.versions ::
      l.versions[v].entryId == e && l.versions[v].reason.Auto? && l.versions[v].bucketStart == Some(bucketStart)
  }

  function WithVersion(l: Ledger, version: VersionRow): Ledger {
    l.(versions := l.versions[l.nextVersion := version], nextVersion := l.nextVersion + 1)
  }

  function DecisionFor(l: Ledger, m: Mutation, forced: Option<CaptureReason>): Decision {
    var current := if m.entryId in l.entries
                   then Some(Current(l.entries[m.entryId].revision, Some(l.entries[m.entryId].lastMutationId))) else None;
    DecideEntryMutation(current, m.mutationId, m.baseRevision, m.op, m.blobId, forced, l.now)
  }

  /** The history kept of what an applied mutation replaces. */
  function KeepReplaced(l: Ledger, m: Mutation, d: Decision): Ledger
    requires d.Apply?
  {
    if d.forcedHistoryBefore.None? || m.entryId !in l.entries then l
    else
      var current := l.entries[m.entryId];
      WithVersion(l, VersionRow(m.entryId, current.blobId, if current.deleted then Delete else Upsert,
                                d.forcedHistoryBefore.value, None, l.now + l.settings.retentionMs))
  }

  /** The automatic copy of an applied mutation: at most one for each entry and time bucket. */
  function KeepAuto(l: Ledger, m: Mutation, d: Decision): Ledger
    requires d.Apply?
  {
    if d.autoVersionBucketStart.None? || BucketTaken(l, m.entryId, d.autoVersionBucketStart.value) then l
    else WithVersion(l, VersionRow(m.entryId, d.nextBlobId, m.op, Auto, d.autoVersionBucketStart,
                                   l.now + l.settings.retentionMs))
  }

  ghost function RetireReplaced(l: Ledger, replaced: Option<BlobId>, next: Option<BlobId>): Ledger {
    if replaced.Some? && replaced != next && !HasCurrent(l, replaced.value)
    then l.(blobs := WithBlobState(l.blobs, replaced.value, PendingDelete, Some(l.now))) else l
  }

  function Reserve(l: Ledger, next: Option<BlobId>): Ledger {
    if next.Some? && next.value in l.blobs && l.blobs[next.value].state.PendingDelete?
    then l.(blobs := WithBlobState(l.blobs, next.value, Staged, Some(l.now + l.settings.gracePeriodMs))) else l
  }

  function WithEntry(l: Ledger, m: Mutation, d: Decision): Ledger
    requires d.Apply?
  {
    l.(entries := l.entries[m.entryId := EntryRow(d.revision, d.nextBlobId, d.nextDeleted, m.mutationId)])
  }

  function MakeLive(l: Ledger, next: Option<BlobId>): Ledger {
    if next.Some? then l.(blobs := WithBlobState(l.blobs, next.value, Live, None)) else l
  }

  ghost function ApplyMutation(l: Ledger, m: Mutation, d: Decision): Ledger
    requires d.Apply?
  {
    var replaced := if m.entryId in l.entries then l.entries[m.entryId].blobId else None;
    var kept := KeepReplaced(Reserve(l, d.nextBlobId), m, d);
    RetireReplaced(MakeLive(KeepAuto(WithEntry(kept, m, d), m, d), d.nextBlobId), replaced, d.nextBlobId)
  }

  ghost function CommitOne(l: Ledger, m: Mutation, unavailable: set<BlobId>, forced: Option<CaptureReason>): (Ledger, Outcome) {
    var d := DecisionFor(l, m, forced);
    match d
    case Idempotent => (l, Accepted(if m.entryId in l.entries then l.entries[m.entryId].revision else 0))
    case StaleRevision(_, _) => (l, RejectedAsStale)
    case Apply(_, revision, next, _, _, _) =>
      if next.Some? && next.value in unavailable then (l, BlobNotFound)
      else if next.Some? && next.value !in l.blobs then (l, BlobNotStaged)
      else (ApplyMutation(l, m, d), Accepted(revision))
  }

  ghost function CommitAll(l: Ledger, mutations: seq<Mutation>, seen: set<MutationId>, unavailable: set<BlobId>,
                           forced: Option<CaptureReason>): (Ledger, seq<Outcome>)
    decreases |mutations|
  {
    if mutations == [] then (l, [])
    else
      var m := mutations[0];
      var (next, outcome) := if m.mutationId in seen then (l, DuplicateMutationId) else CommitOne(l, m, unavailable, forced);
      var (last, outcomes) := CommitAll(next, mutations[1..], seen + {m.mutationId}, unavailable, forced);
      (last, [outcome] + outcomes)
  }

  ghost function WithoutBlobs(l: Ledger, gone: set<BlobId>): Ledger {
    l.(blobs := l.blobs - gone,
       usedBytes := Adjusted(l.usedBytes, 0 - StoredBytes(map b | b in l.blobs && b in gone :: l.blobs[b])))
  }

  ghost function ApplyRelease(l: Ledger, b: BlobId, asOf: int): Ledger {
    if b in l.blobs && l.blobs[b].state.Staged? && !Pinned(l, b, asOf) then WithoutBlobs(l, {b}) else l
  }

  ghost function ApplyPurge(l: Ledger, e: EntryId, revision: int, asOf: int): Ledger {
    var current := if e in l.entries then Some((l.entries[e].revision, l.entries[e].deleted)) else None;
    var restorable := exists v | v in l.versions ::
      l.versions[v].entryId == e && l.versions[v].op.Upsert? && l.versions[v].blobId.Some? && l.versions[v].expiresAt > asOf;
    if !l.paused && DecideDeletedEntryPurge(current, revision, restorable).PurgeAccepted?
    then l.(versions := map v | v in l.versions && l.versions[v].entryId != e :: l.versions[v]) else l
  }

  ghost function ApplyRetire(l: Ledger, b: BlobId, asOf: int): Ledger {
    if b !in l.blobs then l
    else
      match DecidePendingDelete(Facts(l, b, asOf), asOf)
      case MarkPendingDelete(deleteAfter) => l.(blobs := WithBlobState(l.blobs, b, PendingDelete, Some(deleteAfter)))
      case Retain => l
  }

  function ApplyExpire(l: Ledger, asOf: int): Ledger {
    l.(versions := map v | v in l.versions && l.versions[v].expiresAt > asOf :: l.versions[v])
  }

  ghost function ApplyCollect(l: Ledger, blobIds: set<BlobId>, asOf: int): Ledger {
    WithoutBlobs(l, set b | b in blobIds && CollectibleRow(l, b, asOf))
  }

  ghost function Apply(l: Ledger, step: Step): Ledger {
    match step
    case Tick(ms) => l.(now := l.now + ms)
    case Stage(b, sizeBytes) => ApplyStage(l, b, sizeBytes)
    case Commit(mutations, unavailable, forced) =>
      if l.paused then l else CommitAll(l, mutations, {}, unavailable, forced).0
    case Release(b, asOf) => ApplyRelease(l, b, Min(asOf, l.now))
    case Purge(e, revision, asOf) => ApplyPurge(l, e, revision, Min(asOf, l.now))
    case Retire(b, asOf) => ApplyRetire(l, b, Min(asOf, l.now))
    case Expire(asOf) => ApplyExpire(l, Min(asOf, l.now))
    case Collect(blobIds, asOf) => ApplyCollect(l, blobIds, Min(asOf, l.now))
    case CheckDelete(b) =>
      if !l.paused && b in l.blobs && !Pinned(l, b, l.now) then l.(checked := l.checked + multiset{b}) else l
    case DeleteRecord(b) =>
      if b in l.checked then WithoutBlobs(l.(checked := l.checked - multiset{b}), {b}) else l
  }

  ghost function Run(l: Ledger, steps: seq<Step>): Ledger
    decreases |steps|
  {
    if steps == [] then l else Run(Apply(l, steps[0]), steps[1..])
  }

  // ---------------------------------------------------------------- counting

  lemma {:induction false} StoredWithout(blobs: map<BlobId, BlobRow>, b: BlobId)
    requires b in blobs
    ensures StoredBytes(blobs) == blobs[b].sizeBytes + StoredBytes(blobs - {b})
    decreases |blobs|
  {
    var c :| c in blobs && StoredBytes(blobs) == blobs[c].sizeBytes + StoredBytes(blobs - {c});
    if c != b {
      StoredWithout(blobs - {c}, b);
      StoredWithout(blobs - {b}, c);
      assert blobs - {c} - {b} == blobs - {b} - {c};
    }
  }

  lemma {:induction false} StoredSplit(blobs: map<BlobId, BlobRow>, gone: set<BlobId>)
    ensures StoredBytes(blobs) == StoredBytes(blobs - gone) + StoredBytes(map b | b in blobs && b in gone :: blobs[b])
    decreases |blobs|
  {
    var taken := map b | b in blobs && b in gone :: blobs[b];
    if blobs == map[] {
      assert taken == map[] && blobs - gone == map[];
    } else {
      var c :| c in blobs;
      var rest := blobs - {c};
      StoredWithout(blobs, c);
      StoredSplit(rest, gone);
      var restTaken := map b | b in rest && b in gone :: rest[b];
      if c in gone {
        StoredWithout(taken, c);
        assert taken - {c} == restTaken && blobs - gone == rest - gone;
      } else {
        StoredWithout(blobs - gone, c);
        assert taken == restTaken && blobs - gone - {c} == rest - gone;
      }
    }
  }

  lemma StoredUpdate(blobs: map<BlobId, BlobRow>, b: BlobId, row: BlobRow)
    ensures StoredBytes(blobs[b := row])
         == StoredBytes(blobs) + row.sizeBytes - (if b in blobs then blobs[b].sizeBytes else 0)
  {
    var next := blobs[b := row];
    StoredWithout(next, b);
    if b in blobs {
      StoredWithout(blobs, b);
      assert next - {b} == blobs - {b};
    } else {
      assert next - {b} == blobs;
    }
  }

  // --------------------------------------------------------------- invariant

  /** Current blobs are recorded and live, unexpired history's blobs are recorded and not staged. */
  ghost predicate References(l: Ledger) {
    && (forall e | e in l.entries ::
          l.entries[e].blobId.Some? ==> l.entries[e].blobId.value in l.blobs && l.blobs[l.entries[e].blobId.value].state.Live?)
    && (forall v: VersionId | v in l.versions ::
          l.versions[v].blobId.Some? && l.versions[v].expiresAt > l.now ==>
            l.versions[v].blobId.value in l.blobs && !l.blobs[l.versions[v].blobId.value].state.Staged?)
  }

  ghost predicate Rows(l: Ledger) {
    forall b | b in l.blobs ::
      && (l.blobs[b].state.Live? ==> HasCurrent(l, b))
      && (l.blobs[b].state.Live? <==> l.blobs[b].deleteAfter.None?)
  }

  ghost predicate Counted(l: Ledger) {
    && l.usedBytes == StoredBytes(l.blobs)
    && (l.settings.storageLimitBytes > 0 ==> l.usedBytes <= l.settings.storageLimitBytes)
    && (l.settings.maxFileSizeBytes > 0 ==> forall b | b in l.blobs :: l.blobs[b].sizeBytes <= l.settings.maxFileSizeBytes)
  }

  ghost predicate Inv(l: Ledger) {
    References(l) && Rows(l) && Counted(l) && !l.paused && forall v: VersionId | v in l.versions :: v < l.nextVersion
  }

  lemma ReferencedNotStaged(l: Ledger, b: BlobId)
    requires Inv(l)
    ensures Pinned(l, b, l.now) ==> b in l.blobs && !l.blobs[b].state.Staged?
    ensures HasCurrent(l, b) ==> b in l.blobs && l.blobs[b].state.Live?
  {
  }

  lemma PinsOnlyExpire(l: Ledger, b: BlobId, asOf: int)
    requires asOf <= l.now
    ensures Pinned(l, b, l.now) ==> Pinned(l, b, asOf)
  {
  }

  /** Staging never finds a referenced blob still staged, so it never pauses the vault. */
  lemma StageKeepsInv(l: Ledger, b: BlobId, sizeBytes: nat)
    requires Inv(l)
    ensures Inv(ApplyStage(l, b, sizeBytes))
    ensures StageDecisionFor(l, b, sizeBytes) != SyncPaused
    ensures b in l.blobs && Pinned(l, b, l.now) ==> ApplyStage(l, b, sizeBytes) == l
  {
    ReferencedNotStaged(l, b);
    var next := ApplyStage(l, b, sizeBytes);
    if next != l {
      StoredUpdate(l.blobs, b, next.blobs[b]);
      assert !Pinned(l, b, l.now);
      assert References(next);
      forall c | c in next.blobs
        ensures next.blobs[c].state.Live? ==> HasCurrent(next, c)
      {
        assert c != b ==> c in l.blobs;
        if c != b && HasCurrent(l, c) {
          var e :| e in l.entries && l.entries[e].blobId == Some(c);
          assert next.entries[e].blobId == Some(c);
        }
      }
    }
  }

  lemma WithoutBlobsKeepsInv(l: Ledger, gone: set<BlobId>)
    requires Inv(l) && forall b | b in gone :: !Pinned(l, b, l.now)
    ensures Inv(WithoutBlobs(l, gone))
  {
    StoredSplit(l.blobs, gone);
    var next := WithoutBlobs(l, gone);
    forall b | b in next.blobs
      ensures next.blobs[b].state.Live? ==> HasCurrent(next, b)
    {
      if HasCurrent(l, b) {
        var e :| e in l.entries && l.entries[e].blobId == Some(b);
        assert next.entries[e].blobId == Some(b);
      }
    }
    assert References(next);
  }

  lemma WithBlobStateKeepsCount(blobs: map<BlobId, BlobRow>, b: BlobId, state: BlobState, deleteAfter: Option<int>)
    ensures StoredBytes(WithBlobState(blobs, b, state, deleteAfter)) == StoredBytes(blobs)
  {
    if b in blobs {
      StoredUpdate(blobs, b, blobs[b].(state := state, deleteAfter := deleteAfter));
    }
  }

  lemma RetireKeepsInv(l: Ledger, b: BlobId, asOf: int)
    requires Inv(l) && asOf <= l.now
    ensures Inv(ApplyRetire(l, b, asOf))
  {
    var next := ApplyRetire(l, b, asOf);
    if next != l {
      PinsOnlyExpire(l, b, asOf);
      WithBlobStateKeepsCount(l.blobs, b, PendingDelete, next.blobs[b].deleteAfter);
      assert References(next);
      forall c | c in next.blobs
        ensures next.blobs[c].state.Live? ==> HasCurrent(next, c)
      {
        assert HasCurrent(next, c) <==> HasCurrent(l, c);
      }
    }
  }

  lemma FewerVersionsKeepInv(l: Ledger, versions: map<VersionId, VersionRow>)
    requires Inv(l) && versions.Keys <= l.versions.Keys
    requires forall v: VersionId | v in versions :: versions[v] == l.versions[v]
    ensures Inv(l.(versions := versions))
  {
    var next := l.(versions := versions);
    forall c | c in next.blobs
      ensures HasCurrent(next, c) <==> HasCurrent(l, c)
    {
    }
    assert References(next);
  }

  // ------------------------------------------------------ commits keep all

  /** Between the first and the last statement of a commit: `next` is being made live. */
  ghost predicate Midway(l: Ledger, next: Option<BlobId>, replaced: Option<BlobId>) {
    && Counted(l) && !l.paused
    && (forall v: VersionId | v in l.versions :: v < l.nextVersion)
    && (forall e | e in l.entries ::
          l.entries[e].blobId.Some? ==>
            && l.entries[e].blobId.value in l.blobs
            && (l.blobs[l.entries[e].blobId.value].state.Live? || l.entries[e].blobId == next))
    && (forall v: VersionId | v in l.versions ::
          l.versions[v].blobId.Some? && l.versions[v].expiresAt > l.now ==>
            && l.versions[v].blobId.value in l.blobs
            && (!l.blobs[l.versions[v].blobId.value].state.Staged? || l.versions[v].blobId == next))
    && (forall b | b in l.blobs ::
          && (l.blobs[b].state.Live? ==> HasCurrent(l, b) || Some(b) == replaced)
          && (l.blobs[b].state.Live? <==> l.blobs[b].deleteAfter.None?))
    && (next.Some? ==> next.value in l.blobs)
  }

  lemma ReserveMidway(l: Ledger, next: Option<BlobId>)
    requires Inv(l) && (next.Some? ==> next.value in l.blobs)
    ensures Midway(Reserve(l, next), next, None) && Reserve(l, next).entries == l.entries
    ensures Reserve(l, next).versions == l.versions && Reserve(l, next).now == l.now
  {
    var after := Reserve(l, next);
    if after != l {
      WithBlobStateKeepsCount(l.blobs, next.value, Staged, Some(l.now + l.settings.gracePeriodMs));
    }
    forall b | b in after.blobs
      ensures HasCurrent(after, b) <==> HasCurrent(l, b)
    {
    }
  }

  lemma WithVersionMidway(l: Ledger, version: VersionRow, next: Option<BlobId>, replaced: Option<BlobId>)
    requires Midway(l, next, replaced)
    requires version.blobId.Some? ==>
               && version.blobId.value in l.blobs
               && (!l.blobs[version.blobId.value].state.Staged? || version.blobId == next)
    ensures Midway(WithVersion(l, version), next, replaced)
  {
    var after := WithVersion(l, version);
    forall b | b in after.blobs
      ensures HasCurrent(after, b) <==> HasCurrent(l, b)
    {
    }
  }

  lemma WithEntryMidway(l: Ledger, m: Mutation, d: Decision)
    requires d.Apply? && Midway(l, d.nextBlobId, None)
    ensures Midway(WithEntry(l, m, d), d.nextBlobId, if m.entryId in l.entries then l.entries[m.entryId].blobId else None)
  {
    var replaced := if m.entryId in l.entries then l.entries[m.entryId].blobId else None;
    var after := WithEntry(l, m, d);
    forall b | b in after.blobs && after.blobs[b].state.Live?
      ensures HasCurrent(after, b) || Some(b) == replaced
    {
      var e :| e in l.entries && l.entries[e].blobId == Some(b);
      if e != m.entryId {
        assert after.entries[e].blobId == Some(b);
      }
    }
  }

  lemma MakeLiveMidway(l: Ledger, next: Option<BlobId>, replaced: Option<BlobId>)
    requires Midway(l, next, replaced) && (next.Some? ==> HasCurrent(l, next.value))
    ensures var after := MakeLive(l, next);
            Midway(after, None, replaced) && after.entries == l.entries
  {
    var after := MakeLive(l, next);
    if next.Some? {
      WithBlobStateKeepsCount(l.blobs, next.value, Live, None);
    }
    forall b | b in after.blobs
      ensures HasCurrent(after, b) <==> HasCurrent(l, b)
    {
    }
  }

  lemma RetireReplacedFinishes(l: Ledger, replaced: Option<BlobId>, next: Option<BlobId>)
    requires Midway(l, None, replaced) && (next.Some? ==> HasCurrent(l, next.value))
    ensures Inv(RetireReplaced(l, replaced, next))
  {
    var after := RetireReplaced(l, replaced, next);
    if after != l {
      WithBlobStateKeepsCount(l.blobs, replaced.value, PendingDelete, Some(l.now));
    }
    forall b | b in after.blobs
      ensures HasCurrent(after, b) <==> HasCurrent(l, b)
    {
    }
    assert References(after);
  }

  lemma MutationKeepsInv(l: Ledger, m: Mutation, d: Decision)
    requires Inv(l) && d.Apply? && (d.nextBlobId.Some? ==> d.nextBlobId.value in l.blobs)
    ensures Inv(ApplyMutation(l, m, d))
  {
    hide Midway, Inv;
    var next := d.nextBlobId;
    var replaced := if m.entryId in l.entries then l.entries[m.entryId].blobId else None;
    var l1 := Reserve(l, next);
    ReserveMidway(l, next);
    var l2 := KeepReplaced(l1, m, d);
    KeepReplacedMidway(l, m, d);
    var l3 := WithEntry(l2, m, d);
    WithEntryMidway(l2, m, d);
    var l4 := KeepAuto(l3, m, d);
    KeepAutoMidway(l3, m, d, replaced);
    assert l4.entries == l3.entries;
    assert l4.entries[m.entryId].blobId == next;
    assert next.Some? ==> HasCurrent(l4, next.value);
    var l5 := MakeLive(l4, next);
    MakeLiveMidway(l4, next, replaced);
    assert l5.entries[m.entryId].blobId == next;
    assert next.Some? ==> HasCurrent(l5, next.value);
    RetireReplacedFinishes(l5, replaced, next);
  }

  lemma KeepReplacedMidway(l: Ledger, m: Mutation, d: Decision)
    requires Inv(l) && d.Apply? && (d.nextBlobId.Some? ==> d.nextBlobId.value in l.blobs)
    ensures var kept := KeepReplaced(Reserve(l, d.nextBlobId), m, d);
            Midway(kept, d.nextBlobId, None) && kept.entries == l.entries
  {
    hide Midway;
    ReserveMidway(l, d.nextBlobId);
    var reserved := Reserve(l, d.nextBlobId);
    if d.forcedHistoryBefore.Some? && m.entryId in l.entries {
      var current := l.entries[m.entryId];
      assert current.blobId.Some? ==> current.blobId.value in l.blobs && l.blobs[current.blobId.value].state.Live?;
      WithVersionMidway(reserved, VersionRow(m.entryId, current.blobId, if current.deleted then Delete else Upsert,
        d.forcedHistoryBefore.value, None, l.now + l.settings.retentionMs), d.nextBlobId, None);
    }
  }

  lemma KeepAutoMidway(l: Ledger, m: Mutation, d: Decision, replaced: Option<BlobId>)
    requires d.Apply? && Midway(l, d.nextBlobId, replaced)
    ensures Midway(KeepAuto(l, m, d), d.nextBlobId, replaced)
  {
    if d.autoVersionBucketStart.Some? {
      WithVersionMidway(l, VersionRow(m.entryId, d.nextBlobId, m.op, Auto, d.autoVersionBucketStart,
        l.now + l.settings.retentionMs), d.nextBlobId, replaced);
    }
  }

  lemma {:induction false} CommitAllKeepsInv(l: Ledger, mutations: seq<Mutation>, seen: set<MutationId>,
                                             unavailable: set<BlobId>, forced: Option<CaptureReason>)
    requires Inv(l)
    ensures Inv(CommitAll(l, mutations, seen, unavailable, forced).0)
    decreases |mutations|
  {
    hide Inv, ApplyMutation, DecideEntryMutation;
    if mutations != [] {
      var m := mutations[0];
      var next := if m.mutationId in seen then l else CommitOne(l, m, unavailable, forced).0;
      var d := DecisionFor(l, m, forced);
      if d.Apply? && (d.nextBlobId.Some? ==> d.nextBlobId.value in l.blobs) {
        MutationKeepsInv(l, m, d);
      }
      CommitAllKeepsInv(next, mutations[1..], seen + {m.mutationId}, unavailable, forced);
    }
  }

  // -------------------------------------------------------------------- runs

  /** Deleting a record is safe unless the blob was referenced after its deletion was allowed. */
  ghost predicate Safe(l: Ledger, step: Step) {
    step.DeleteRecord? && step.deletedBlobId in l.checked ==> !Pinned(l, step.deletedBlobId, l.now)
  }

  ghost predicate SafeRun(l: Ledger, steps: seq<Step>)
    decreases |steps|
  {
    steps == [] || (Safe(l, steps[0]) && SafeRun(Apply(l, steps[0]), steps[1..]))
  }

  lemma TickKeepsInv(l: Ledger, ms: nat)
    requires Inv(l)
    ensures Inv(l.(now := l.now + ms))
  {
    var next := l.(now := l.now + ms);
    forall b | b in next.blobs
      ensures HasCurrent(next, b) <==> HasCurrent(l, b)
    {
    }
  }

  lemma CheckKeepsInv(l: Ledger, checked: multiset<BlobId>)
    requires Inv(l)
    ensures Inv(l.(checked := checked))
    ensures forall b :: Pinned(l.(checked := checked), b, l.now) <==> Pinned(l, b, l.now)
  {
    var next := l.(checked := checked);
    forall b: BlobId
      ensures HasCurrent(next, b) <==> HasCurrent(l, b)
    {
    }
    forall b: BlobId
      ensures HasHistory(next, b, l.now) <==> HasHistory(l, b, l.now)
    {
    }
  }

  lemma StepKeepsInv(l: Ledger, step: Step)
    requires Inv(l) && Safe(l, step)
    ensures Inv(Apply(l, step)) && Apply(l, step).settings == l.settings
  {
    hide Inv;
    match step
    case Tick(ms) => TickKeepsInv(l, ms);
    case Stage(b, sizeBytes) => StageKeepsInv(l, b, sizeBytes);
    case Commit(mutations, unavailable, forced) =>
      CommitAllKeepsInv(l, mutations, {}, unavailable, forced);
      CommitKeepsSettings(l, mutations, {}, unavailable, forced);
    case Release(b, asOf) =>
      PinsOnlyExpire(l, b, Min(asOf, l.now));
      WithoutBlobsIfUnpinned(l, b);
    case Purge(e, revision, asOf) =>
      FewerVersionsKeepInv(l, map v | v in l.versions && l.versions[v].entryId != e :: l.versions[v]);
    case Retire(b, asOf) => RetireKeepsInv(l, b, Min(asOf, l.now));
    case Expire(asOf) =>
      FewerVersionsKeepInv(l, map v | v in l.versions && l.versions[v].expiresAt > Min(asOf, l.now) :: l.versions[v]);
    case Collect(blobIds, asOf) => CollectKeepsInv(l, blobIds, Min(asOf, l.now));
    case CheckDelete(b) => CheckKeepsInv(l, l.checked + multiset{b});
    case DeleteRecord(b) =>
      CheckKeepsInv(l, l.checked - multiset{b});
      WithoutBlobsIfUnpinned(l.(checked := l.checked - multiset{b}), b);
  }

  lemma WithoutBlobsIfUnpinned(l: Ledger, b: BlobId)
    requires Inv(l)
    ensures !Pinned(l, b, l.now) ==> Inv(WithoutBlobs(l, {b}))
  {
    if !Pinned(l, b, l.now) {
      WithoutBlobsKeepsInv(l, {b});
    }
  }

  lemma CollectKeepsInv(l: Ledger, blobIds: set<BlobId>, asOf: int)
    requires Inv(l) && asOf <= l.now
    ensures Inv(ApplyCollect(l, blobIds, asOf))
  {
    var gone := set b | b in blobIds && CollectibleRow(l, b, asOf);
    forall b | b in gone
      ensures !Pinned(l, b, l.now)
    {
      PinsOnlyExpire(l, b, asOf);
    }
    WithoutBlobsKeepsInv(l, gone);
  }

  lemma {:induction false} CommitKeepsSettings(l: Ledger, mutations: seq<Mutation>, seen: set<MutationId>,
                                               unavailable: set<BlobId>, forced: Option<CaptureReason>)
    ensures CommitAll(l, mutations, seen, unavailable, forced).0.settings == l.settings
    ensures CommitAll(l, mutations, seen, unavailable, forced).0.now == l.now
    decreases |mutations|
  {
    hide ApplyMutation, DecideEntryMutation;
    if mutations != [] {
      var m := mutations[0];
      var d := DecisionFor(l, m, forced);
      if d.Apply? {
        MutationFrame(l, m, d);
      }
      var next := if m.mutationId in seen then l else CommitOne(l, m, unavailable, forced).0;
      CommitKeepsSettings(next, mutations[1..], seen + {m.mutationId}, unavailable, forced);
    }
  }

  lemma {:induction false} RunKeepsInv(l: Ledger, steps: seq<Step>)
    requires Inv(l) && SafeRun(l, steps)
    ensures Inv(Run(l, steps)) && Run(l, steps).settings == l.settings
    decreases |steps|
  {
    hide Inv, Safe, Apply;
    if steps != [] {
      StepKeepsInv(l, steps[0]);
      RunKeepsInv(Apply(l, steps[0]), steps[1..]);
    }
  }

  /** Every current entry's and every unexpired version's blob has a record. */
  ghost predicate NothingReferencedIsLost(l: Ledger) {
    forall b :: Pinned(l, b, l.now) ==> b in l.blobs
  }

  /** After any run: the bytes counted are the bytes recorded and within a fixed non-zero limit; no
      blob of a current entry or of unexpired history was removed; a blob is live exactly while a
      current entry has it, and otherwise has a deadline; and the vault was never paused. */
  lemma LedgerIsExact(settings: Settings, now: int, steps: seq<Step>)
    requires SafeRun(Empty(settings, now), steps)
    ensures var l := Run(Empty(settings, now), steps);
            && l.usedBytes == StoredBytes(l.blobs)
            && (settings.storageLimitBytes > 0 ==> l.usedBytes <= settings.storageLimitBytes)
            && (settings.maxFileSizeBytes > 0 ==> forall b | b in l.blobs :: l.blobs[b].sizeBytes <= settings.maxFileSizeBytes)
            && NothingReferencedIsLost(l)
            && (forall b | b in l.blobs :: (l.blobs[b].state.Live? <==> HasCurrent(l, b)))
            && (forall b | b in l.blobs :: (l.blobs[b].state.Live? <==> l.blobs[b].deleteAfter.None?))
            && !l.paused
  {
    var start := Empty(settings, now);
    assert Inv(start);
    RunKeepsInv(start, steps);
    var l := Run(start, steps);
    forall b
      ensures Pinned(l, b, l.now) ==> b in l.blobs
      ensures HasCurrent(l, b) ==> b in l.blobs && l.blobs[b].state.Live?
    {
      ReferencedNotStaged(l, b);
    }
  }

  /** Deletion on request checks the references first and deletes the record later. It loses a
      referenced blob exactly when something came to reference the blob in between. */
  lemma LateDeletionLosesExactlyPinnedBlobs(settings: Settings, now: int, steps: seq<Step>, b: BlobId)
    requires SafeRun(Empty(settings, now), steps)
    ensures var l := Run(Empty(settings, now), steps);
            b in l.checked ==>
              (NothingReferencedIsLost(Apply(l, DeleteRecord(b))) <==> !Pinned(l, b, l.now))
  {
    var start := Empty(settings, now);
    assert Inv(start);
    RunKeepsInv(start, steps);
    var l := Run(start, steps);
    if b in l.checked {
      var next := Apply(l, DeleteRecord(b));
      assert b !in next.blobs;
      forall c
        ensures Pinned(next, c, l.now) <==> Pinned(l, c, l.now)
      {
        SameReferences(l, next, c);
      }
      if !Pinned(l, b, l.now) {
        StepKeepsInv(l, DeleteRecord(b));
        forall c
          ensures Pinned(next, c, l.now) ==> c in next.blobs
        {
          ReferencedNotStaged(next, c);
        }
      }
    }
  }

  lemma SameReferences(l: Ledger, next: Ledger, b: BlobId)
    requires next.entries == l.entries && next.versions == l.versions
    ensures Pinned(next, b, l.now) <==> Pinned(l, b, l.now)
  {
    assert HasCurrent(next, b) <==> HasCurrent(l, b);
    assert HasHistory(next, b, l.now) <==> HasHistory(l, b, l.now);
  }

  lemma CommitSingle(l: Ledger, m: Mutation, unavailable: set<BlobId>, forced: Option<CaptureReason>)
    ensures CommitAll(l, [m], {}, unavailable, forced).0 == CommitOne(l, m, unavailable, forced).0
  {
    hide CommitOne;
    var next := CommitOne(l, m, unavailable, forced).0;
    assert CommitAll(next, [], {} + {m.mutationId}, unavailable, forced).0 == next;
    assert [m][1..] == [];
  }

  // ------------------------------------------------------- history is kept

  /** A commit writes blobs, entries and history, and nothing else. */
  lemma MutationFrame(l: Ledger, m: Mutation, d: Decision)
    requires d.Apply?
    ensures var next := ApplyMutation(l, m, d);
            var kept := KeepReplaced(Reserve(l, d.nextBlobId), m, d);
            var copied := KeepAuto(WithEntry(kept, m, d), m, d);
            && next == copied.(blobs := next.blobs)
            && copied == kept.(entries := copied.entries, versions := copied.versions, nextVersion := copied.nextVersion)
            && kept == l.(blobs := kept.blobs, versions := kept.versions, nextVersion := kept.nextVersion)
  {
    hide HasCurrent;
    var reserved := Reserve(l, d.nextBlobId);
    assert reserved == l.(blobs := reserved.blobs);
    var kept := KeepReplaced(reserved, m, d);
    assert kept == reserved.(versions := kept.versions, nextVersion := kept.nextVersion);
    var copied := KeepAuto(WithEntry(kept, m, d), m, d);
    assert copied == kept.(entries := copied.entries, versions := copied.versions, nextVersion := copied.nextVersion);
    var live := MakeLive(copied, d.nextBlobId);
    assert live == copied.(blobs := live.blobs);
  }

  lemma MutationKeepsVersions(l: Ledger, m: Mutation, d: Decision, v: VersionId)
    requires d.Apply? && v in l.versions && v < l.nextVersion
    ensures var next := ApplyMutation(l, m, d);
            v in next.versions && next.versions[v] == l.versions[v] && v < next.nextVersion
  {
    hide ApplyMutation;
    MutationFrame(l, m, d);
    var kept := KeepReplaced(Reserve(l, d.nextBlobId), m, d);
    assert v in kept.versions && kept.versions[v] == l.versions[v] && v < kept.nextVersion;
  }

  /** A forced copy holds the blob that was replaced, until the retention period ends. */
  lemma ForcedHistoryHoldsTheReplacedBlob(l: Ledger, m: Mutation, d: Decision)
    requires d.Apply? && d.forcedHistoryBefore.Some? && m.entryId in l.entries
    ensures var next := ApplyMutation(l, m, d);
            && l.nextVersion in next.versions
            && next.versions[l.nextVersion].entryId == m.entryId
            && next.versions[l.nextVersion].blobId == l.entries[m.entryId].blobId
            && next.versions[l.nextVersion].expiresAt == l.now + l.settings.retentionMs
  {
    hide ApplyMutation;
    MutationFrame(l, m, d);
    var kept := KeepReplaced(Reserve(l, d.nextBlobId), m, d);
    assert kept.nextVersion == l.nextVersion + 1 && l.nextVersion in kept.versions;
    assert kept.versions[l.nextVersion].blobId == l.entries[m.entryId].blobId;
  }

  lemma {:induction false} CommitKeepsVersions(l: Ledger, mutations: seq<Mutation>, seen: set<MutationId>,
                                               unavailable: set<BlobId>, forced: Option<CaptureReason>, v: VersionId)
    requires v in l.versions && v < l.nextVersion
    ensures var next := CommitAll(l, mutations, seen, unavailable, forced).0;
            v in next.versions && next.versions[v] == l.versions[v]
    decreases |mutations|
  {
    hide ApplyMutation, DecideEntryMutation;
    if mutations != [] {
      var m := mutations[0];
      var d := DecisionFor(l, m, forced);
      if d.Apply? {
        MutationKeepsVersions(l, m, d, v);
      }
      var next := if m.mutationId in seen then l else CommitOne(l, m, unavailable, forced).0;
      CommitKeepsVersions(next, mutations[1..], seen + {m.mutationId}, unavailable, forced, v);
    }
  }

  lemma StepKeepsVersion(l: Ledger, step: Step, v: VersionId)
    requires v in l.versions && v < l.nextVersion && Apply(l, step).now < l.versions[v].expiresAt
    requires step.Purge? ==> step.entryId != l.versions[v].entryId
    ensures var next := Apply(l, step);
            v in next.versions && next.versions[v] == l.versions[v] && l.now <= next.now
  {
    hide CommitAll;
    if step.Commit? {
      CommitKeepsVersions(l, step.mutations, {}, step.unavailable, step.forced, v);
      CommitKeepsSettings(l, step.mutations, {}, step.unavailable, step.forced);
    }
  }

  lemma {:induction false} ClockNeverGoesBack(l: Ledger, steps: seq<Step>)
    ensures l.now <= Run(l, steps).now
    decreases |steps|
  {
    if steps != [] {
      if steps[0].Commit? {
        CommitKeepsSettings(l, steps[0].mutations, {}, steps[0].unavailable, steps[0].forced);
      }
      ClockNeverGoesBack(Apply(l, steps[0]), steps[1..]);
    }
  }

  /** A version, once kept, survives any run in which its entry is not purged until it expires, and
      until then its blob stays recorded and is never collected. */
  lemma {:induction false} HistoryKeepsItsBlob(l: Ledger, steps: seq<Step>, v: VersionId)
    requires Inv(l) && SafeRun(l, steps) && v in l.versions
    requires forall s | s in steps :: s.Purge? ==> s.entryId != l.versions[v].entryId
    ensures var after := Run(l, steps);
            after.now < l.versions[v].expiresAt ==>
              && v in after.versions && after.versions[v] == l.versions[v]
              && (l.versions[v].blobId.Some? ==> l.versions[v].blobId.value in after.blobs)
    decreases |steps|
  {
    hide Apply, Safe;
    if steps != [] {
      var next := Apply(l, steps[0]);
      assert steps[0] in steps && forall s | s in steps[1..] :: s in steps;
      StepKeepsInv(l, steps[0]);
      ClockNeverGoesBack(next, steps[1..]);
      if Run(next, steps[1..]).now < l.versions[v].expiresAt {
        StepKeepsVersion(l, steps[0], v);
        HistoryKeepsItsBlob(next, steps[1..], v);
      }
    }
  }

  const SETTINGS: Settings := Settings(0, 0, 1800000, 86400000)

  /** The case itself: a staged blob's deletion is allowed, a commit then references the blob, and
      the record is deleted under the entry. */
  lemma CommitBetweenCheckAndDeletion()
    ensures var commit := Commit([Mutation(1, "note", 0, Upsert, Some("b"))], {}, None);
            var checked := Apply(Apply(Empty(SETTINGS, 0), Stage("b", 5)), CheckDelete("b"));
            var l := Apply(Apply(checked, commit), DeleteRecord("b"));
            HasCurrent(l, "b") && "b" !in l.blobs
  {
    var m := Mutation(1, "note", 0, Upsert, Some("b"));
    var empty := Empty(SETTINGS, 0);
    assert StageDecisionFor(empty, "b", 5) == StagedWith(5);
    var staged := Apply(empty, Stage("b", 5));
    assert staged.entries == map[] && staged.versions == map[] && "b" in staged.blobs && !staged.paused;
    assert !Pinned(staged, "b", 0);
    var checked := Apply(staged, CheckDelete("b"));
    CommitSingle(checked, m, {}, None);
    CommitsFirstVersion(checked, m);
    hide ApplyStage, CommitAll, CommitOne;
    var committed := Apply(checked, Commit([m], {}, None));
    var l := Apply(committed, DeleteRecord("b"));
    assert l.entries["note"].blobId == Some("b");
  }

  lemma CommitsFirstVersion(l: Ledger, m: Mutation)
    requires m == Mutation(1, "note", 0, Upsert, Some("b")) && l.entries == map[] && "b" in l.blobs
    ensures var next := CommitOne(l, m, {}, None).0;
            "note" in next.entries && next.entries["note"].blobId == Some("b") && next.checked == l.checked
  {
    var d := DecisionFor(l, m, None);
    assert d.Apply? && d.nextBlobId == Some("b");
    MutationFrame(l, m, d);
    hide ApplyMutation;
  }

  /** An accepted mutation is the entry's latest at the revision answered; any other answer means
      that nothing changed. */
  lemma AcceptedMeansRecorded(l: Ledger, m: Mutation, unavailable: set<BlobId>, forced: Option<CaptureReason>)
    ensures var (next, outcome) := CommitOne(l, m, unavailable, forced);
            if outcome.Accepted? then
              && m.entryId in next.entries
              && next.entries[m.entryId].lastMutationId == m.mutationId
              && next.entries[m.entryId].revision == outcome.revision
            else next == l
  {
    var d := DecisionFor(l, m, forced);
    if d.Apply? {
      MutationFrame(l, m, d);
      hide ApplyMutation, Reserve;
    }
  }

  /** A purge drops the history of one deleted entry at its present revision, and nothing else. */
  lemma PurgeIsExact(l: Ledger, e: EntryId, revision: int, asOf: int)
    ensures var next := ApplyPurge(l, e, revision, asOf);
            && next == l.(versions := next.versions)
            && (next != l ==>
                  && e in l.entries && l.entries[e].deleted && l.entries[e].revision == revision
                  && (forall v: VersionId | v in next.versions :: next.versions[v].entryId != e))
            && (forall v: VersionId | v in l.versions && l.versions[v].entryId != e ::
                  v in next.versions && next.versions[v] == l.versions[v])
  {
  }

  /** Staging the same blob again never counts it twice, and cannot change its size. */
  lemma RestagingNeverDoubleCounts(l: Ledger, b: BlobId, size: nat, later: nat, again: nat)
    requires Inv(l)
    ensures var once := ApplyStage(l, b, size);
            var twice := ApplyStage(once.(now := once.now + later), b, again);
            b in once.blobs ==>
              && twice.usedBytes == once.usedBytes && twice.blobs[b].sizeBytes == once.blobs[b].sizeBytes
              && twice.blobs[b].createdAt == once.blobs[b].createdAt
  {
  }

  // -------------------------------------------------------- when GC runs next

  /** A deadline the scheduler reads: a staged blob's unless it is past and the blob referenced, an
      unreferenced retired blob's, or any version's expiry. */
  ghost predicate IsDeadline(l: Ledger, d: int) {
    || (exists b | b in l.blobs ::
          && l.blobs[b].state.Staged? && l.blobs[b].deleteAfter == Some(d)
          && (d > l.now || !Pinned(l, b, l.now)))
    || (exists b | b in l.blobs ::
          l.blobs[b].state.PendingDelete? && l.blobs[b].deleteAfter == Some(d) && !Pinned(l, b, l.now))
    || (exists v: VersionId | v in l.versions :: l.versions[v].expiresAt == d)
  }

  /** The query's answer: the least deadline, if there is one. */
  ghost predicate ReadDeadlines(l: Ledger, deadlines: seq<int>) {
    if exists d :: IsDeadline(l, d) then
      |deadlines| == 1 && IsDeadline(l, deadlines[0]) && forall d | IsDeadline(l, d) :: deadlines[0] <= d
    else deadlines == []
  }

  lemma PolicyMatchesCollectionGuard(l: Ledger, b: BlobId, now: int)
    requires b in l.blobs
    ensures CollectibleRow(l, b, now) <==> DecideBlobCollection(Facts(l, b, now), now).Collectible?
  {
  }

  /** Collection is never scheduled late: whatever becomes collectible without further changes
      becomes so no earlier than the next scheduled run. */
  lemma CollectionIsNeverLate(l: Ledger, deadlines: seq<int>, b: BlobId, t: int)
    requires ReadDeadlines(l, deadlines) && l.now <= t && CollectibleRow(l, b, t)
    ensures var due := EarliestGcDeadline(deadlines, l.now);
            due.Some? && l.now <= due.value <= t
  {
    var row := l.blobs[b];
    if Pinned(l, b, l.now) {
      var v: VersionId :| v in l.versions && l.versions[v].blobId == Some(b) && l.versions[v].expiresAt > l.now;
      assert l.versions[v].expiresAt <= t;
      assert IsDeadline(l, l.versions[v].expiresAt);
    } else {
      assert IsDeadline(l, row.deleteAfter.value);
    }
  }

  /** Collection is never scheduled in vain: at the scheduled time a version has expired or a blob
      is collectible, so every run removes something. */
  lemma CollectionAlwaysFindsWork(l: Ledger, deadlines: seq<int>)
    requires Inv(l) && ReadDeadlines(l, deadlines)
    ensures var due := EarliestGcDeadline(deadlines, l.now);
            due.Some? ==>
              || (exists v: VersionId | v in l.versions :: l.versions[v].expiresAt <= due.value)
              || (exists b | b in l.blobs :: CollectibleRow(l, b, due.value))
  {
    var due := EarliestGcDeadline(deadlines, l.now);
    if due.Some? {
      var d := deadlines[0];
      assert d <= due.value;
      if v: VersionId :| v in l.versions && l.versions[v].expiresAt == d {
      } else {
        var b :| b in l.blobs && l.blobs[b].deleteAfter == Some(d) && !l.blobs[b].state.Live?
                 && (l.blobs[b].state.Staged? || !Pinned(l, b, l.now));
        ReferencedNotStaged(l, b);
        LaterUnpinned(l, b, due.value);
        assert CollectibleRow(l, b, due.value);
      }
    }
  }

  lemma LaterUnpinned(l: Ledger, b: BlobId, t: int)
    requires l.now <= t && !Pinned(l, b, l.now)
    ensures !Pinned(l, b, t)
  {
  }
}
