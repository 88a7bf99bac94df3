/** The client's three-state store: remote, base and local rows plus one dirty mutation per entry. */
module SyncStore {
  import opened Wrappers
  import opened EntryPolicy

  type EntryId = string
  type Hash = string
  type VaultKey = nat

  datatype Metadata = Metadata(path: string, hash: Option<Hash>)

  /** What the metadata ciphertext of a mutation is authenticated with. */
  datatype MetadataContext = MetadataContext(entryId: EntryId, revision: int, op: Op, blobId: Option<BlobId>)

  /** Ideal authenticated encryption: a ciphertext opens only under its own key and context. */
  datatype SealedMetadata = SealedMetadata(key: VaultKey, context: MetadataContext, metadata: Metadata)

  function Seal(key: VaultKey, metadata: Metadata, context: MetadataContext): SealedMetadata {
    SealedMetadata(key, context, metadata)
  }

  function Open(key: VaultKey, sealedBox: SealedMetadata, context: MetadataContext): Option<Metadata> {
    if sealedBox.key == key && sealedBox.context == context then Some(sealedBox.metadata) else None
  }

  datatype BlockedReason = FileTooLarge | IncompatiblePath

  datatype PendingStatus = Pending | Blocked(reason: BlockedReason)

  datatype PendingMutation = PendingMutation(
    mutationId: MutationId, entryId: EntryId, op: Op, status: PendingStatus,
    baseRevision: nat, baseBlobId: Option<BlobId>, baseHash: Option<Hash>,
    blobId: Option<BlobId>, hash: Option<Hash>, encryptedMetadata: SealedMetadata)

  function ContextOf(m: PendingMutation): MetadataContext {
    MetadataContext(m.entryId, m.baseRevision + 1, m.op, m.blobId)
  }

  datatype RemoteRow = RemoteRow(path: Option<string>, revision: nat, blobId: Option<BlobId>, hash: Option<Hash>,
                                 deleted: bool, updatedAt: int)

  datatype BaseRow = BaseRow(path: Option<string>, revision: nat, blobId: Option<BlobId>, hash: Option<Hash>,
                             deleted: bool)

  datatype LocalRow = LocalRow(path: Option<string>, blobId: Option<BlobId>, hash: Option<Hash>, deleted: bool,
                               updatedAt: int, localMtime: Option<int>, localSize: Option<int>)

  datatype EntryState = EntryState(remote: Option<RemoteRow>, base: BaseRow, local: Option<LocalRow>,
                                   dirty: Option<PendingMutation>)

  datatype CachedBlob = CachedBlob(blobId: BlobId, hash: Option<Hash>)

  /** A mutation the server accepted, as the push service reports it to the store. */
  datatype Accepted = Accepted(mutation: PendingMutation, metadata: Metadata, acceptedRevision: nat,
                               remoteBlobId: Option<BlobId>, localHash: Option<Hash>, acceptedAt: int,
                               remoteCacheBlob: Option<CachedBlob>)

  const NO_BASE: BaseRow := BaseRow(None, 0, None, None, true)
  const NEW_STATE: EntryState := EntryState(None, NO_BASE, None, None)

  type Entries = map<EntryId, EntryState>
  type Blobs = map<BlobId, CachedBlob>

  function StateOf(entries: Entries, id: EntryId): EntryState {
    if id in entries then entries[id] else NEW_STATE
  }

  function RemoteToBase(remote: RemoteRow): BaseRow {
    BaseRow(remote.path, remote.revision, remote.blobId, remote.hash, remote.deleted)
  }

  function WithRemote(state: EntryState, remote: RemoteRow): EntryState {
    state.(remote := Some(remote), base := if state.dirty.None? then RemoteToBase(remote) else state.base)
  }

  /** Records a local change: the mutation becomes the dirty one, and its base the entry's base. */
  function WithDirty(state: EntryState, m: PendingMutation): EntryState {
    state.(dirty := Some(m),
           base := BaseRow(if state.remote.Some? && state.remote.value.path.Some? then state.remote.value.path
                           else state.base.path,
                           m.baseRevision, m.baseBlobId, m.baseHash,
                           if state.remote.Some? then state.remote.value.deleted else state.base.deleted))
  }

  predicate HasRequiredBaseBlob(blobs: Blobs, m: PendingMutation) {
    m.baseBlobId.Some? && m.baseHash.Some? ==>
      m.baseBlobId.value in blobs && blobs[m.baseBlobId.value].hash == m.baseHash
  }

  function AcceptedRemote(item: Accepted): RemoteRow {
    var deleted := item.mutation.op.Delete?;
    RemoteRow(Some(item.metadata.path), item.acceptedRevision, if deleted then None else item.remoteBlobId,
              if deleted then None else item.localHash, deleted, item.acceptedAt)
  }

  /** The remote and local rows after a push was accepted; dirty and base rows come later. */
  function WithAcceptedRows(state: EntryState, item: Accepted): EntryState {
    var updatesLocal :=
      && item.mutation.op.Upsert?
      && (state.local.Some? ==>
            state.local.value.hash == item.mutation.hash && state.local.value.path == Some(item.metadata.path));
    state.(remote := Some(AcceptedRemote(item)),
           local :=
             if updatesLocal then
               Some(LocalRow(Some(item.metadata.path), item.remoteBlobId, item.localHash, false, item.acceptedAt,
                             if state.local.Some? then state.local.value.localMtime else None,
                             if state.local.Some? then state.local.value.localSize else None))
             else state.local)
  }

  /** A newer mutation moved onto the accepted revision, its metadata sealed for the new base. */
  function Rebased(m: PendingMutation, item: Accepted, key: VaultKey, metadata: Metadata): PendingMutation {
    var moved := m.(baseRevision := item.acceptedRevision, baseBlobId := item.remoteBlobId, baseHash := item.localHash);
    moved.(encryptedMetadata := Seal(key, metadata, ContextOf(moved)))
  }

  /** Acknowledges one push. The flag is false when the newer mutation's metadata does not open. */
  function Acknowledged(state: EntryState, item: Accepted, key: VaultKey): (EntryState, bool) {
    var updated := WithAcceptedRows(state, item);
    var settledBase := RemoteToBase(AcceptedRemote(item));
    if state.dirty.None? || state.dirty.value.mutationId == item.mutation.mutationId then
      (updated.(dirty := None, base := settledBase), true)
    else
      var metadata := Open(key, state.dirty.value.encryptedMetadata, ContextOf(state.dirty.value));
      if metadata.None? then (updated, false)
      else (updated.(dirty := Some(Rebased(state.dirty.value, item, key, metadata.value)), base := settledBase), true)
  }

  function AcknowledgeAll(entries: Entries, items: seq<Accepted>, key: VaultKey): (Entries, bool)
    decreases |items|
  {
    if items == [] then (entries, true)
    else
      var id := items[0].mutation.entryId;
      var (state, ok) := Acknowledged(StateOf(entries, id), items[0], key);
      if ok then AcknowledgeAll(entries[id := state], items[1..], key) else (entries[id := state], false)
  }

  function CacheOne(blobs: Blobs, item: Accepted): Blobs {
    if item.remoteCacheBlob.Some? then blobs[item.remoteCacheBlob.value.blobId := item.remoteCacheBlob.value] else blobs
  }

  function CacheAll(blobs: Blobs, items: seq<Accepted>): Blobs
    decreases |items|
  {
    if items == [] then blobs else CacheAll(CacheOne(blobs, items[0]), items[1..])
  }

  /** What a batch caches: the blobs of the pushes before the first that cannot be acknowledged. */
  function CacheAcknowledged(entries: Entries, blobs: Blobs, items: seq<Accepted>, key: VaultKey): Blobs
    decreases |items|
  {
    if items == [] then blobs
    else
      var id := items[0].mutation.entryId;
      var (state, ok) := Acknowledged(StateOf(entries, id), items[0], key);
      if ok then CacheAcknowledged(entries[id := state], CacheOne(blobs, items[0]), items[1..], key) else blobs
  }

  /** A batch acknowledged in full caches everything it brought. */
  lemma {:induction false} FullBatchCachesAll(entries: Entries, blobs: Blobs, items: seq<Accepted>, key: VaultKey)
    requires AcknowledgeAll(entries, items, key).1
    ensures CacheAcknowledged(entries, blobs, items, key) == CacheAll(blobs, items)
    decreases |items|
  {
    hide Acknowledged, CacheOne;
    if items != [] {
      var id := items[0].mutation.entryId;
      var state := Acknowledged(StateOf(entries, id), items[0], key).0;
      FullBatchCachesAll(entries[id := state], CacheOne(blobs, items[0]), items[1..], key);
    }
  }

  lemma AcknowledgeNext(entries: Entries, blobs: Blobs, items: seq<Accepted>, i: nat, key: VaultKey)
    requires i < |items|
    ensures var id := items[i].mutation.entryId;
            var (state, ok) := Acknowledged(StateOf(entries, id), items[i], key);
            AcknowledgeAll(entries, items[i..], key)
            == if ok then AcknowledgeAll(entries[id := state], items[i + 1..], key) else (entries[id := state], false)
    ensures var id := items[i].mutation.entryId;
            var (state, ok) := Acknowledged(StateOf(entries, id), items[i], key);
            CacheAcknowledged(entries, blobs, items[i..], key)
            == if ok then CacheAcknowledged(entries[id := state], CacheOne(blobs, items[i]), items[i + 1..], key) else blobs
  {
    assert items[i..][0] == items[i] && items[i..][1..] == items[i + 1..];
  }

  lemma AcknowledgeDone(entries: Entries, blobs: Blobs, key: VaultKey)
    ensures AcknowledgeAll(entries, [], key) == (entries, true) && CacheAcknowledged(entries, blobs, [], key) == blobs
  {
  }

  predicate DistinctEntries(items: seq<Accepted>) {
    forall i, j | 0 <= i < j < |items| :: items[i].mutation.entryId != items[j].mutation.entryId
  }

  /** A batch over distinct entries acknowledges each one on its own and touches no other entry. */
  lemma {:induction false} BatchIsPointwise(entries: Entries, items: seq<Accepted>, key: VaultKey)
    requires DistinctEntries(items) && AcknowledgeAll(entries, items, key).1
    ensures var after := AcknowledgeAll(entries, items, key).0;
            && (forall i | 0 <= i < |items| ::
                  var id := items[i].mutation.entryId;
                  id in after && (after[id], true) == Acknowledged(StateOf(entries, id), items[i], key))
            && (forall id | id in entries :: id in after)
            && (forall id | forall i | 0 <= i < |items| :: items[i].mutation.entryId != id ::
                  StateOf(after, id) == StateOf(entries, id))
    decreases |items|
  {
    hide Acknowledged;
    if items != [] {
      var id := items[0].mutation.entryId;
      var next := entries[id := Acknowledged(StateOf(entries, id), items[0], key).0];
      BatchIsPointwise(next, items[1..], key);
      var after := AcknowledgeAll(next, items[1..], key).0;
      assert forall i | 0 <= i < |items[1..]| :: items[1..][i].mutation.entryId != id;
      assert StateOf(after, id) == StateOf(next, id);
      forall i | 0 <= i < |items|
        ensures var id := items[i].mutation.entryId;
                id in after && (after[id], true) == Acknowledged(StateOf(entries, id), items[i], key)
      {
        if i > 0 {
          assert items[i] == items[1..][i - 1];
        }
      }
    }
  }

  /** What a settled base row says: the remote row's path, revision, blob, hash and deletion. */
  predicate IsBaseOf(base: BaseRow, remote: RemoteRow) {
    && base.path == remote.path && base.revision == remote.revision && base.blobId == remote.blobId
    && base.hash == remote.hash && base.deleted == remote.deleted
  }

  /** The rows an acknowledged push leaves: the remote row is what was pushed, at the revision the
      server gave, and the base is that row; a deletion has no content. The local row follows an
      upsert unless it has moved on, keeping its own modification time and size. */
  predicate AcknowledgedAs(before: EntryState, after: EntryState, item: Accepted) {
    && after.remote.Some?
    && (var remote := after.remote.value;
        && remote.path == Some(item.metadata.path) && remote.revision == item.acceptedRevision
        && remote.updatedAt == item.acceptedAt && remote.deleted == item.mutation.op.Delete?
        && remote.blobId == (if item.mutation.op.Delete? then None else item.remoteBlobId)
        && remote.hash == (if item.mutation.op.Delete? then None else item.localHash)
        && IsBaseOf(after.base, remote))
    && if item.mutation.op.Upsert?
          && (before.local.None? || (before.local.value.hash == item.mutation.hash
                                     && before.local.value.path == Some(item.metadata.path)))
       then
         && after.local.Some? && after.local.value.path == Some(item.metadata.path)
         && after.local.value.blobId == item.remoteBlobId && after.local.value.hash == item.localHash
         && !after.local.value.deleted && after.local.value.updatedAt == item.acceptedAt
         && (before.local.Some? ==>
               after.local.value.localMtime == before.local.value.localMtime
               && after.local.value.localSize == before.local.value.localSize)
         && (before.local.None? ==> after.local.value.localMtime.None? && after.local.value.localSize.None?)
       else after.local == before.local
  }

  lemma AcknowledgedRows(state: EntryState, item: Accepted, key: VaultKey)
    ensures var (after, ok) := Acknowledged(state, item, key);
            && (ok ==> AcknowledgedAs(state, after, item))
            && (ok <==> state.dirty.None? || state.dirty.value.mutationId == item.mutation.mutationId
                        || Open(key, state.dirty.value.encryptedMetadata, ContextOf(state.dirty.value)).Some?)
            && (state.dirty.None? || state.dirty.value.mutationId == item.mutation.mutationId ==> after.dirty.None?)
  {
  }

  /** Metadata opens exactly under the vault's key and the mutation's own entry, operation, blob and
      revision, which is the one after its base. */
  lemma MetadataOpensForItsMutation(key: VaultKey, metadata: Metadata, m: PendingMutation, attempt: VaultKey, presented: PendingMutation)
    requires m.encryptedMetadata == Seal(key, metadata, ContextOf(m))
    ensures Open(attempt, m.encryptedMetadata, ContextOf(presented)).Some? <==>
              && attempt == key && presented.entryId == m.entryId && presented.op == m.op && presented.blobId == m.blobId
              && presented.baseRevision == m.baseRevision
    ensures Open(key, m.encryptedMetadata, ContextOf(m)) == Some(metadata)
    ensures Open(key, m.encryptedMetadata, MetadataContext(m.entryId, m.baseRevision + 1, m.op, m.blobId)) == Some(metadata)
  {
  }

  /** A newer edit survives the acknowledgment of an older push: same change, same metadata, now
      made on the accepted revision and its content, and sealed for it. */
  lemma NewerEditSurvives(state: EntryState, item: Accepted, key: VaultKey)
    requires state.dirty.Some? && state.dirty.value.mutationId != item.mutation.mutationId
    ensures var m := state.dirty.value;
            var metadata := Open(key, m.encryptedMetadata, ContextOf(m));
            var (after, ok) := Acknowledged(state, item, key);
            && ok == metadata.Some?
            && (ok ==>
                  && after.dirty.Some?
                  && Open(key, after.dirty.value.encryptedMetadata, ContextOf(after.dirty.value)) == metadata
                  && after.dirty.value.baseRevision == after.base.revision == item.acceptedRevision
                  && after.dirty.value.baseBlobId == item.remoteBlobId && after.dirty.value.baseHash == item.localHash
                  && after.dirty.value.entryId == m.entryId
                  && after.dirty.value.mutationId == m.mutationId && after.dirty.value.op == m.op
                  && after.dirty.value.blobId == m.blobId && after.dirty.value.hash == m.hash
                  && after.dirty.value.status == m.status)
            && (!ok ==> after.dirty == state.dirty && after.base == state.base)
  {
  }

  /** Acknowledging a push never overwrites the local row of a newer local change, or of a removal. */
  lemma NewerLocalRowSurvives(state: EntryState, item: Accepted, key: VaultKey)
    requires state.local.Some?
    requires item.mutation.op.Delete? || state.local.value.hash != item.mutation.hash
             || state.local.value.path != Some(item.metadata.path)
    ensures Acknowledged(state, item, key).0.local == state.local
  {
  }

  lemma BatchLeavesRows(entries: Entries, items: seq<Accepted>, key: VaultKey)
    requires AcknowledgeAll(entries, items, key).1
    ensures DistinctEntries(items) ==>
              forall i | 0 <= i < |items| ::
                var id := items[i].mutation.entryId;
                var after := AcknowledgeAll(entries, items, key).0;
                id in after && AcknowledgedAs(StateOf(entries, id), after[id], items[i])
  {
    hide Acknowledged, AcknowledgeAll, AcknowledgedAs;
    if DistinctEntries(items) {
      BatchIsPointwise(entries, items, key);
      forall i | 0 <= i < |items|
        ensures var id := items[i].mutation.entryId;
                AcknowledgedAs(StateOf(entries, id), AcknowledgeAll(entries, items, key).0[id], items[i])
      {
        AcknowledgedRows(StateOf(entries, items[i].mutation.entryId), items[i], key);
      }
    }
  }

  datatype StoreError = MissingBaseBlob | UnreadableMetadata

  class InMemorySyncStore {
    var entries: Entries
    var blobs: Blobs

    constructor ()
      ensures entries == map[] && blobs == map[]
    {
      entries, blobs := map[], map[];
    }

    method GetOrCreateEntry(id: EntryId) returns (state: EntryState)
      modifies this`entries
      ensures state == StateOf(old(entries), id) && entries == old(entries)[id := state]
    {
      if id in entries {
        assert entries == entries[id := entries[id]];
        return entries[id];
      }
      state := NEW_STATE;
      entries := entries[id := state];
    }

    method ApplyRemoteState(id: EntryId, remote: RemoteRow)
      modifies this`entries
      ensures entries == old(entries)[id := WithRemote(StateOf(old(entries), id), remote)]
      ensures var before := StateOf(old(entries), id);
              && id in entries && entries[id].remote == Some(remote)
              && entries[id].local == before.local && entries[id].dirty == before.dirty
              && (before.dirty.None? ==> IsBaseOf(entries[id].base, remote))
              && (before.dirty.Some? ==> entries[id].base == before.base)
    {
      var state := GetOrCreateEntry(id);
      state := state.(remote := Some(remote));
      if state.dirty.None? {
        state := state.(base := RemoteToBase(remote));
      }
      entries := entries[id := state];
    }

    method ApplyLocalState(id: EntryId, local: LocalRow)
      modifies this`entries
      ensures entries == old(entries)[id := StateOf(old(entries), id).(local := Some(local))]
    {
      var state := GetOrCreateEntry(id);
      entries := entries[id := state.(local := Some(local))];
    }

    /** Makes a mutation the entry's dirty one; refuses, changing nothing, when it requires a
        cached base blob that the store does not have. */
    method MarkEntryDirty(m: PendingMutation, requireBaseBlob: bool) returns (result: Result<(), StoreError>)
      modifies this`entries
      ensures result.Err? <==>
                && requireBaseBlob && m.baseBlobId.Some? && m.baseHash.Some?
                && (m.baseBlobId.value in blobs ==> blobs[m.baseBlobId.value].hash != m.baseHash)
      ensures result.Err? ==> entries == old(entries) && result.error == MissingBaseBlob
      ensures result.Ok? ==> entries == old(entries)[m.entryId := WithDirty(StateOf(old(entries), m.entryId), m)]
      ensures result.Ok? ==>
                var before, after := StateOf(old(entries), m.entryId), StateOf(entries, m.entryId);
                && after.dirty == Some(m) && after.remote == before.remote && after.local == before.local
                && after.base.revision == m.baseRevision && after.base.blobId == m.baseBlobId && after.base.hash == m.baseHash
                && (before.remote.Some? ==> after.base.deleted == before.remote.value.deleted)
                && (before.remote.None? ==> after.base.deleted == before.base.deleted)
                && after.base.path == (if before.remote.Some? && before.remote.value.path.Some?
                                       then before.remote.value.path else before.base.path)
    {
      if requireBaseBlob && !HasRequiredBaseBlob(blobs, m) {
        return Err(MissingBaseBlob);
      }
      var state := GetOrCreateEntry(m.entryId);
      state := state.(dirty := Some(m));
      state := state.(base := BaseRow(
        if state.remote.Some? && state.remote.value.path.Some? then state.remote.value.path else state.base.path,
        m.baseRevision, m.baseBlobId, m.baseHash,
        if state.remote.Some? then state.remote.value.deleted else state.base.deleted));
      entries := entries[m.entryId := state];
      result := Ok(());
    }

    /** Acknowledges accepted pushes in order, moving a newer dirty mutation onto the accepted
        revision. Unreadable metadata stops the batch with that entry half updated. */
    method ApplyAcceptedPushBatch(accepted: seq<Accepted>, key: VaultKey) returns (result: Result<(), StoreError>)
      modifies this
      ensures (entries, result.Ok?) == AcknowledgeAll(old(entries), accepted, key)
      ensures result.Err? ==> result.error == UnreadableMetadata
      ensures blobs == CacheAcknowledged(old(entries), old(blobs), accepted, key)
      ensures result.Ok? ==> blobs == CacheAll(old(blobs), accepted)
      ensures result.Ok? && DistinctEntries(accepted) ==>
                forall i | 0 <= i < |accepted| ::
                  var id := accepted[i].mutation.entryId;
                  id in entries && AcknowledgedAs(StateOf(old(entries), id), entries[id], accepted[i])
    {
      hide AcknowledgeAll, CacheAcknowledged, CacheAll, WithAcceptedRows, AcceptedRemote, Rebased, ContextOf;
      assert accepted[0..] == accepted;
      for i := 0 to |accepted|
        invariant AcknowledgeAll(entries, accepted[i..], key) == AcknowledgeAll(old(entries), accepted, key)
        invariant CacheAcknowledged(entries, blobs, accepted[i..], key)
               == CacheAcknowledged(old(entries), old(blobs), accepted, key)
      {
        var item := accepted[i];
        var id := item.mutation.entryId;
        AcknowledgeNext(entries, blobs, accepted, i, key);
        ghost var before := entries;
        var state := GetOrCreateEntry(id);
        var currentPending := state.dirty;
        state := WithAcceptedRows(state, item);
        assert entries[id := state] == before[id := state];
        if currentPending.None? || currentPending.value.mutationId == item.mutation.mutationId {
          state := state.(dirty := None, base := RemoteToBase(AcceptedRemote(item)));
        } else {
          var metadata := Open(key, currentPending.value.encryptedMetadata, ContextOf(currentPending.value));
          if metadata.None? {
            entries := entries[id := state];
            return Err(UnreadableMetadata);
          }
          state := state.(dirty := Some(Rebased(currentPending.value, item, key, metadata.value)),
                          base := RemoteToBase(AcceptedRemote(item)));
        }
        entries := entries[id := state];
        assert entries == before[id := state];
        if item.remoteCacheBlob.Some? {
          blobs := blobs[item.remoteCacheBlob.value.blobId := item.remoteCacheBlob.value];
        }
      }
      AcknowledgeDone(entries, blobs, key);
      assert accepted[|accepted|..] == [];
      FullBatchCachesAll(old(entries), old(blobs), accepted, key);
      BatchLeavesRows(old(entries), accepted, key);
      result := Ok(());
    }
  }
}
