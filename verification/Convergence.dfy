/** One vault with a single writer: local edits, pushes, commits, lost replies, late arrivals and
    pulls of one entry interleave freely, and the client's rows still converge on the server's. */
module Convergence {
  import opened Wrappers
  import opened EntryPolicy
  import opened SyncStore

  datatype ServerRow = ServerRow(revision: nat, blobId: Option<BlobId>, encryptedMetadata: SealedMetadata, deleted: bool,
                                 lastMutationId: MutationId)

  datatype Answer = AcceptedAt(revision: nat) | Stale

  /** A mutation being pushed: what was prepared for it and the server's answer so far. */
  datatype Flight = Flight(mutation: PendingMutation, metadata: Metadata, answer: Option<Answer>)

  datatype Content = Content(deleted: bool, blobId: Option<BlobId>, metadata: Option<Metadata>)

  /** What the user last did to the entry, the remote revision it was done on, and whether a push was
      in flight. Kept for the theorems only: no step reads more of it than that there was an edit. */
  datatype Edit = Edit(content: Content, madeOn: nat, duringPush: bool)

  /** `lost` holds what was sent and given up waiting for: the server may still handle it, at any time. */
  datatype Sync = Sync(id: EntryId, key: VaultKey, client: EntryState, server: Option<ServerRow>, flight: Option<Flight>,
                       lost: seq<PendingMutation>, nextMutation: MutationId, lastEdit: Option<Edit>)

  datatype Step =
    | Write(path: string, hash: Hash, blobId: BlobId, writtenAt: int)
    | Remove(removedPath: string, removedAt: int)
    | Push
    | Commit(committedAt: int)
    | Settle(settledAt: int)
    | Lose
    | Arrive(index: nat, arrivedAt: int)
    | Pull(pulledAt: int)
    | Block(reason: BlockedReason)
    | Unblock

  function Start(id: EntryId, key: VaultKey): Sync {
    Sync(id, key, NEW_STATE, None, None, [], 0, None)
  }

  function RemoteRevision(client: EntryState): nat {
    if client.remote.Some? then client.remote.value.revision else 0
  }

  function ServerRevision(w: Sync): nat {
    if w.server.Some? then w.server.value.revision else 0
  }

  predicate UpToDate(w: Sync) {
    RemoteRevision(w.client) == ServerRevision(w)
  }

  // ------------------------------------------------------------------ steps

  /** The mutation a local edit queues: its base is the entry's remote row. */
  function Queued(w: Sync, op: Op, metadata: Metadata, blobId: Option<BlobId>): PendingMutation {
    var remote := w.client.remote;
    var base := RemoteRevision(w.client);
    PendingMutation(w.nextMutation, w.id, op, Pending, base, if remote.Some? then remote.value.blobId else None,
                    if remote.Some? then remote.value.hash else None, blobId, metadata.hash,
                    Seal(w.key, metadata, MetadataContext(w.id, base + 1, op, blobId)))
  }

  /** The file the entry stands for is visible, here or at the server as last seen. */
  predicate Present(client: EntryState) {
    || (client.local.Some? && !client.local.value.deleted)
    || (client.remote.Some? && !client.remote.value.deleted)
  }

  /** A write is one to this entry if it creates the entry, finds its file, or finds its pending
      delete; any other write creates another entry under a fresh identifier. */
  predicate Addressed(w: Sync) {
    || w.lastEdit.None?
    || Present(w.client)
    || (w.client.dirty.Some? && w.client.dirty.value.op.Delete?)
  }

  function Edited(w: Sync, op: Op, metadata: Metadata, blobId: Option<BlobId>): Option<Edit> {
    Some(Edit(Content(op.Delete?, blobId, Some(metadata)), RemoteRevision(w.client), w.flight.Some?))
  }

  function ApplyWrite(w: Sync, path: string, hash: Hash, blobId: BlobId, now: int): Sync {
    if !Addressed(w) then w
    else
      var metadata := Metadata(path, Some(hash));
      var m := Queued(w, Upsert, metadata, Some(blobId));
      var local := LocalRow(Some(path), Some(blobId), Some(hash), false, now, None, None);
      w.(client := WithDirty(w.client, m).(local := Some(local)), nextMutation := w.nextMutation + 1,
         lastEdit := Edited(w, Upsert, metadata, Some(blobId)))
  }

  /** Removing a file the server is not known to have drops the entry; otherwise a delete is queued. */
  function ApplyRemove(w: Sync, path: string, now: int): Sync {
    if !Present(w.client) then w
    else
      var edited := w.(lastEdit := Edited(w, Delete, Metadata(path, None), None));
      if RemoteRevision(w.client) == 0 then edited.(client := NEW_STATE)
      else
        var m := Queued(w, Delete, Metadata(path, None), None);
        var local := LocalRow(None, None, None, true, now, None, None);
        edited.(client := WithDirty(w.client, m).(local := Some(local)), nextMutation := w.nextMutation + 1)
  }

  /** Sends the pending mutation, unless one is already on its way. */
  function ApplyPush(w: Sync): Sync {
    if w.flight.Some? || w.client.dirty.None? || !w.client.dirty.value.status.Pending? then w
    else
      var metadata := Open(w.key, w.client.dirty.value.encryptedMetadata, ContextOf(w.client.dirty.value));
      if metadata.None? then w else w.(flight := Some(Flight(w.client.dirty.value, metadata.value, None)))
  }

  function CurrentOf(server: Option<ServerRow>): Option<Current> {
    if server.Some? then Some(Current(server.value.revision, Some(server.value.lastMutationId))) else None
  }

  function Handle(server: Option<ServerRow>, m: PendingMutation, now: int): (Option<ServerRow>, Answer) {
    var d := DecideEntryMutation(CurrentOf(server), m.mutationId, m.baseRevision, m.op, m.blobId, None, now);
    match d
    case Idempotent => (server, AcceptedAt(if server.Some? then server.value.revision else 0))
    case StaleRevision(_, _) => (server, Stale)
    case Apply(_, revision, nextBlobId, nextDeleted, _, _) =>
      (Some(ServerRow(revision, nextBlobId, m.encryptedMetadata, nextDeleted, m.mutationId)), AcceptedAt(revision))
  }

  /** The server handles the mutation in flight, possibly once more than it is answered. */
  function ApplyCommit(w: Sync, now: int): Sync {
    if w.flight.None? then w
    else
      var (server, answer) := Handle(w.server, w.flight.value.mutation, now);
      w.(server := server, flight := Some(w.flight.value.(answer := Some(answer))))
  }

  /** The client stops waiting; what it sent may still arrive. */
  function ApplyLose(w: Sync): Sync {
    if w.flight.None? then w else w.(flight := None, lost := w.lost + [w.flight.value.mutation])
  }

  /** A lost mutation reaches the server after all; nobody hears the answer. */
  function ApplyArrive(w: Sync, index: nat, now: int): Sync {
    if index >= |w.lost| then w else w.(server := Handle(w.server, w.lost[index], now).0)
  }

  function AcceptedItem(f: Flight, revision: nat, now: int): Accepted {
    var deleted := f.mutation.op.Delete?;
    Accepted(f.mutation, f.metadata, revision, if deleted then None else f.mutation.blobId,
             if deleted then None else f.mutation.hash, now, None)
  }

  function ApplySettle(w: Sync, now: int): Sync {
    if w.flight.None? || w.flight.value.answer.None? then w
    else
      match w.flight.value.answer.value
      case Stale => w.(flight := None)
      case AcceptedAt(revision) =>
        w.(client := Acknowledged(w.client, AcceptedItem(w.flight.value, revision, now), w.key).0, flight := None)
  }

  /** The server's row as a client that pulls it sees it. */
  function ServerView(w: Sync, now: int): Option<RemoteRow> {
    if w.server.None? then None
    else
      var row := w.server.value;
      var op := if row.deleted then Delete else Upsert;
      var metadata := Open(w.key, row.encryptedMetadata, MetadataContext(w.id, row.revision, op, row.blobId));
      if metadata.None? then None
      else Some(RemoteRow(Some(metadata.value.path), row.revision, row.blobId, metadata.value.hash, row.deleted, now))
  }

  function ApplyPull(w: Sync, now: int): Sync {
    var row := ServerView(w, now);
    if row.None? then w else w.(client := WithRemote(w.client, row.value))
  }

  function WithStatus(w: Sync, status: PendingStatus): Sync {
    if w.client.dirty.None? then w
    else w.(client := WithDirty(w.client, w.client.dirty.value.(status := status)))
  }

  function Apply(w: Sync, step: Step): Sync {
    match step
    case Write(path, hash, blobId, now) => ApplyWrite(w, path, hash, blobId, now)
    case Remove(path, now) => ApplyRemove(w, path, now)
    case Push => ApplyPush(w)
    case Commit(now) => ApplyCommit(w, now)
    case Settle(now) => ApplySettle(w, now)
    case Lose => ApplyLose(w)
    case Arrive(index, now) => ApplyArrive(w, index, now)
    case Pull(now) => ApplyPull(w, now)
    case Block(reason) => WithStatus(w, Blocked(reason))
    case Unblock => WithStatus(w, Pending)
  }

  function Run(w: Sync, steps: seq<Step>): Sync
    decreases |steps|
  {
    if steps == [] then w else Run(Apply(w, steps[0]), steps[1..])
  }

  // ------------------------------------------------------------- when safe

  /** The server's row is this very mutation. */
  predicate Recorded(w: Sync, m: PendingMutation) {
    && w.server.Some?
    && w.server.value == ServerRow(m.baseRevision + 1, m.blobId, m.encryptedMetadata, m.op.Delete?, m.mutationId)
  }

  /** A mutation the server would apply: it was made on the present revision. */
  predicate Applicable(w: Sync, m: PendingMutation) {
    && m.baseRevision == ServerRevision(w)
    && (w.server.Some? ==> w.server.value.lastMutationId != m.mutationId)
  }

  /** Nothing the client gave up on can change the server any more. */
  predicate NothingLate(w: Sync) {
    forall m | m in w.lost :: !Applicable(w, m)
  }

  /** When an edit or a lost reply can be followed without harm. An edit is made while a push is in
      flight, or on the server's revision with nothing late on its way. A push may be given up on
      unless it was recorded and something newer was made on an older revision; while it is not yet
      recorded, only if it is still what the client means to push. Every other step is always safe. */
  predicate Safe(w: Sync, step: Step) {
    match step
    case Write(_, _, _, _) => !Addressed(w) || w.flight.Some? || (UpToDate(w) && NothingLate(w))
    case Remove(_, _) => !Present(w.client) || w.flight.Some? || (UpToDate(w) && NothingLate(w))
    case Lose =>
      w.flight.Some? ==>
        var m := w.flight.value.mutation;
        if w.client.dirty.Some? && w.client.dirty.value.mutationId == m.mutationId then true
        else
          && Recorded(w, m)
          && if w.client.dirty.None? then UpToDate(w) else w.client.dirty.value.baseRevision == ServerRevision(w)
    case _ => true
  }

  predicate SafeRun(w: Sync, steps: seq<Step>)
    decreases |steps|
  {
    steps == [] || (Safe(w, steps[0]) && SafeRun(Apply(w, steps[0]), steps[1..]))
  }

  // -------------------------------------------------------------- invariant

  predicate WellFormed(w: Sync, m: PendingMutation) {
    && m.entryId == w.id
    && m.mutationId < w.nextMutation
    && Open(w.key, m.encryptedMetadata, ContextOf(m)).Some?
    && Open(w.key, m.encryptedMetadata, ContextOf(m)).value.hash == m.hash
    && (m.op.Delete? ==> m.blobId.None? && m.hash.None? && m.baseRevision >= 1)
  }

  predicate SameMutation(a: PendingMutation, b: PendingMutation) {
    a.(status := b.status, baseBlobId := b.baseBlobId, baseHash := b.baseHash) == b
  }

  predicate SameRow(a: RemoteRow, b: RemoteRow) {
    a.(updatedAt := b.updatedAt) == b
  }

  predicate ServerInv(w: Sync) {
    w.server.Some? ==>
      && w.server.value.revision >= 1
      && w.server.value.lastMutationId < w.nextMutation
      && ServerView(w, 0).Some?
  }

  predicate ClientInv(w: Sync) {
    && RemoteRevision(w.client) <= ServerRevision(w)
    && (w.client.remote.Some? ==> w.client.remote.value.revision >= 1)
    && (w.client.remote.Some? && UpToDate(w) ==>
          ServerView(w, 0).Some? && SameRow(w.client.remote.value, ServerView(w, 0).value))
    && (w.client.dirty.None? ==>
          w.client.base == if w.client.remote.Some? then RemoteToBase(w.client.remote.value) else NO_BASE)
    && (w.client.dirty.Some? ==>
          WellFormed(w, w.client.dirty.value) && w.client.dirty.value.baseRevision <= RemoteRevision(w.client))
  }

  predicate IdleInv(w: Sync) {
    w.flight.None? ==>
      if w.client.dirty.None? then UpToDate(w)
      else Recorded(w, w.client.dirty.value) || (Applicable(w, w.client.dirty.value) && UpToDate(w))
  }

  predicate FlightInv(w: Sync) {
    w.flight.Some? ==>
      var f := w.flight.value;
      && WellFormed(w, f.mutation)
      && f.mutation.baseRevision <= RemoteRevision(w.client)
      && Open(w.key, f.mutation.encryptedMetadata, ContextOf(f.mutation)) == Some(f.metadata)
      && (f.answer.Some? ==> Recorded(w, f.mutation) && f.answer.value == AcceptedAt(ServerRevision(w)))
      && (Recorded(w, f.mutation) || (Applicable(w, f.mutation) && UpToDate(w)))
      && (w.client.dirty.Some? ==>
            if w.client.dirty.value.mutationId == f.mutation.mutationId then SameMutation(w.client.dirty.value, f.mutation)
            else
              && (w.server.Some? ==> w.server.value.lastMutationId != w.client.dirty.value.mutationId)
              && (!Recorded(w, f.mutation) ==> Applicable(w, w.client.dirty.value)))
  }

  /** The client still means to push this very mutation, or is pushing it. */
  predicate Held(w: Sync, m: PendingMutation) {
    if w.flight.Some? then SameMutation(w.flight.value.mutation, m)
    else w.client.dirty.Some? && SameMutation(w.client.dirty.value, m)
  }

  /** Whatever arrives late and could still be applied is what the client is pushing anyway. */
  predicate LostInv(w: Sync) {
    forall m | m in w.lost ::
      && WellFormed(w, m)
      && m.baseRevision <= ServerRevision(w)
      && (Applicable(w, m) ==> Held(w, m))
  }

  predicate Inv(w: Sync) {
    ServerInv(w) && ClientInv(w) && IdleInv(w) && FlightInv(w) && LostInv(w)
  }

  lemma WriteKeepsInv(w: Sync, step: Step)
    requires Inv(w) && Safe(w, step) && step.Write?
    ensures Inv(Apply(w, step))
  {
  }

  lemma RemoveKeepsInv(w: Sync, step: Step)
    requires Inv(w) && Safe(w, step) && step.Remove?
    ensures Inv(Apply(w, step))
  {
  }

  lemma RecordedIsIdempotent(w: Sync, m: PendingMutation, now: int)
    requires Recorded(w, m)
    ensures Handle(w.server, m, now) == (w.server, AcceptedAt(ServerRevision(w)))
  {
  }

  lemma ApplicableIsApplied(w: Sync, m: PendingMutation, now: int)
    requires Applicable(w, m) && WellFormed(w, m)
    ensures var (server, answer) := Handle(w.server, m, now);
            Recorded(w.(server := server), m) && answer == AcceptedAt(m.baseRevision + 1)
  {
  }

  lemma InapplicableIsIgnored(w: Sync, m: PendingMutation, now: int)
    requires m.baseRevision <= ServerRevision(w) && !Applicable(w, m)
    ensures Handle(w.server, m, now).0 == w.server
  {
  }

  /** The server's row moves on to a mutation that the client is pushing or still means to push. */
  lemma RecordingKeepsInv(w: Sync, m: PendingMutation, server: Option<ServerRow>)
    requires Inv(w) && Applicable(w, m) && WellFormed(w, m) && Recorded(w.(server := server), m)
    requires Held(w, m) && (w.flight.Some? ==> w.flight.value.answer.None?)
    ensures Inv(w.(server := server))
  {
    var next := w.(server := server);
    var holder := if w.flight.Some? then w.flight.value.mutation else w.client.dirty.value;
    assert Recorded(next, holder);
    assert ServerInv(next);
    assert !UpToDate(next);
    assert ClientInv(next);
    assert FlightInv(next);
    assert LostInv(next);
  }

  /** In a safe state the server accepts what is in flight, and handling it again changes nothing. */
  lemma CommitKeepsInv(w: Sync, now: int)
    requires Inv(w)
    ensures Inv(ApplyCommit(w, now))
    ensures w.flight.Some? ==>
              var next := ApplyCommit(w, now);
              && next == w.(server := next.server, flight := next.flight)
              && next.flight == Some(w.flight.value.(answer := Some(AcceptedAt(ServerRevision(next)))))
              && Recorded(next, w.flight.value.mutation)
  {
    hide Handle;
    if w.flight.Some? {
      var m := w.flight.value.mutation;
      if Recorded(w, m) {
        RecordedIsIdempotent(w, m, now);
      } else {
        ApplicableIsApplied(w, m, now);
        RecordingKeepsInv(w, m, Handle(w.server, m, now).0);
      }
    }
  }

  lemma ArriveKeepsInv(w: Sync, index: nat, now: int)
    requires Inv(w)
    ensures Inv(ApplyArrive(w, index, now))
  {
    hide Handle, ServerInv, ClientInv, IdleInv;
    if index < |w.lost| {
      var m := w.lost[index];
      if Applicable(w, m) {
        ApplicableIsApplied(w, m, now);
        RecordingKeepsInv(w, m, Handle(w.server, m, now).0);
      } else {
        InapplicableIsIgnored(w, m, now);
      }
    }
  }

  lemma SettleKeepsInv(w: Sync, now: int)
    requires Inv(w)
    ensures Inv(ApplySettle(w, now))
  {
    hide Handle, DecideEntryMutation;
    if w.flight.Some? && w.flight.value.answer.Some? {
      var f := w.flight.value;
      var item := AcceptedItem(f, ServerRevision(w), now);
      assert SameRow(AcceptedRemote(item), ServerView(w, 0).value);
      var next := ApplySettle(w, now);
      assert next.client.remote == Some(AcceptedRemote(item)) && UpToDate(next);
      assert ClientInv(next);
    }
  }

  lemma LoseKeepsInv(w: Sync)
    requires Inv(w) && Safe(w, Lose)
    ensures Inv(ApplyLose(w))
  {
  }

  lemma PushKeepsInv(w: Sync)
    requires Inv(w)
    ensures Inv(ApplyPush(w))
  {
  }

  lemma PullKeepsInv(w: Sync, now: int)
    requires Inv(w)
    ensures Inv(ApplyPull(w, now))
  {
    if w.server.Some? {
      assert SameRow(ServerView(w, now).value, ServerView(w, 0).value);
    }
  }

  lemma StatusKeepsInv(w: Sync, status: PendingStatus)
    requires Inv(w)
    ensures Inv(WithStatus(w, status))
  {
  }

  lemma StepKeepsInv(w: Sync, step: Step)
    requires Inv(w) && Safe(w, step)
    ensures Inv(Apply(w, step))
  {
    hide ServerInv, ClientInv, IdleInv, FlightInv, LostInv;
    match step
    case Write(_, _, _, _) => WriteKeepsInv(w, step);
    case Remove(_, _) => RemoveKeepsInv(w, step);
    case Push => PushKeepsInv(w);
    case Commit(now) => CommitKeepsInv(w, now);
    case Settle(now) => SettleKeepsInv(w, now);
    case Lose => LoseKeepsInv(w);
    case Arrive(index, now) => ArriveKeepsInv(w, index, now);
    case Pull(now) => PullKeepsInv(w, now);
    case Block(reason) => StatusKeepsInv(w, Blocked(reason));
    case Unblock => StatusKeepsInv(w, Pending);
  }

  // ------------------------------------------------- what the user intended

  function DirtyContent(w: Sync): Option<Content> {
    if w.client.dirty.None? then None
    else
      var m := w.client.dirty.value;
      Some(Content(m.op.Delete?, m.blobId, Open(w.key, m.encryptedMetadata, ContextOf(m))))
  }

  function ServerContent(w: Sync): Option<Content> {
    if w.server.None? then None
    else
      var row := w.server.value;
      var op := if row.deleted then Delete else Upsert;
      Some(Content(row.deleted, row.blobId,
                   Open(w.key, row.encryptedMetadata, MetadataContext(w.id, row.revision, op, row.blobId))))
  }

  /** The last edit removed the file before the client had heard of any revision, during a push. */
  predicate RemovedDuringFirstPush(w: Sync) {
    w.lastEdit.Some? && w.lastEdit.value.content.deleted && w.lastEdit.value.madeOn == 0 && w.lastEdit.value.duringPush
  }

  /** That is a removal the caller can recognise as it makes it. */
  lemma RemovalGuard(w: Sync, path: string, now: int)
    requires Present(w.client)
    ensures RemovedDuringFirstPush(Apply(w, Remove(path, now))) <==> RemoteRevision(w.client) == 0 && w.flight.Some?
  {
  }

  /** The server has what the user last made of the entry: that content, or for a removal no file. */
  predicate Fulfilled(w: Sync) {
    match w.lastEdit
    case None => w.server.None?
    case Some(e) => ServerContent(w) == Some(e.content) || (e.content.deleted && w.server.None?)
  }

  predicate IntentInv(w: Sync) {
    if w.lastEdit.None? then w.client == NEW_STATE && w.server.None? && w.flight.None? && w.lost == []
    else
      && (w.client.dirty.Some? ==> DirtyContent(w) == Some(w.lastEdit.value.content) && !RemovedDuringFirstPush(w))
      && (w.client.dirty.None? && w.flight.Some? ==> RemovedDuringFirstPush(w) && w.flight.value.mutation.op.Upsert?)
      && (w.client.dirty.None? && w.flight.None? ==>
            if RemovedDuringFirstPush(w) then w.server.Some? && !w.server.value.deleted else Fulfilled(w))
  }

  lemma EditKeepsIntent(w: Sync, step: Step)
    requires Inv(w) && IntentInv(w) && Safe(w, step) && (step.Write? || step.Remove?)
    ensures IntentInv(Apply(w, step))
  {
  }

  lemma SettleKeepsIntent(w: Sync, now: int)
    requires Inv(w) && IntentInv(w)
    ensures IntentInv(ApplySettle(w, now))
  {
  }

  lemma LoseKeepsIntent(w: Sync)
    requires Inv(w) && IntentInv(w) && Safe(w, Lose)
    ensures IntentInv(ApplyLose(w))
  {
  }

  lemma ArriveKeepsIntent(w: Sync, index: nat, now: int)
    requires Inv(w) && IntentInv(w)
    ensures IntentInv(ApplyArrive(w, index, now))
  {
    hide Handle, ServerInv, ClientInv, IdleInv, FlightInv;
    if index < |w.lost| && !Applicable(w, w.lost[index]) {
      InapplicableIsIgnored(w, w.lost[index], now);
    }
  }

  lemma StepKeepsIntent(w: Sync, step: Step)
    requires Inv(w) && IntentInv(w) && Safe(w, step)
    ensures IntentInv(Apply(w, step))
  {
    match step
    case Write(_, _, _, _) => EditKeepsIntent(w, step);
    case Remove(_, _) => EditKeepsIntent(w, step);
    case Settle(now) => SettleKeepsIntent(w, now);
    case Lose => LoseKeepsIntent(w);
    case Arrive(index, now) => ArriveKeepsIntent(w, index, now);
    case _ =>
  }

  lemma {:induction false} SafeRunKeepsInv(w: Sync, steps: seq<Step>)
    requires Inv(w) && IntentInv(w) && SafeRun(w, steps)
    ensures Inv(Run(w, steps)) && IntentInv(Run(w, steps))
    decreases |steps|
  {
    hide Inv, IntentInv, Apply, Safe;
    if steps != [] {
      StepKeepsInv(w, steps[0]);
      StepKeepsIntent(w, steps[0]);
      SafeRunKeepsInv(Apply(w, steps[0]), steps[1..]);
    }
  }

  // --------------------------------------------------------------- theorems

  predicate Quiescent(w: Sync) {
    w.flight.None? && w.client.dirty.None?
  }

  /** The client's remote and base rows are the server's row, with the metadata the server stores. */
  predicate Converged(w: Sync) {
    if w.server.None? then w.client.remote.None? && w.client.base == BaseRow(None, 0, None, None, true)
    else
      && w.client.remote.Some?
      && var remote, row, base := w.client.remote.value, w.server.value, w.client.base;
         && row.encryptedMetadata.key == w.key
         && remote.path == base.path == Some(row.encryptedMetadata.metadata.path)
         && remote.hash == base.hash == row.encryptedMetadata.metadata.hash
         && remote.revision == base.revision == row.revision
         && remote.blobId == base.blobId == row.blobId
         && remote.deleted == base.deleted == row.deleted
  }

  /** Nothing that arrives late changes anything any more. */
  ghost predicate Undisturbed(w: Sync) {
    forall index: nat, now :: ApplyArrive(w, index, now) == w
  }

  lemma QuiescenceConverges(w: Sync)
    requires Inv(w) && Quiescent(w)
    ensures Converged(w) && Undisturbed(w)
  {
    assert Converged(w);
    hide Handle, ServerInv, ClientInv, IdleInv, FlightInv;
    forall index: nat, now
      ensures ApplyArrive(w, index, now) == w
    {
      if index < |w.lost| {
        InapplicableIsIgnored(w, w.lost[index], now);
      }
    }
  }

  /** However edits, pushes, commits, lost replies, late arrivals and pulls interleave, the server
      never answers a safe run's push with a stale revision, and whenever nothing is dirty or in
      flight the client's remote and base rows equal the server's entry, for good. */
  lemma SingleWriterConverges(id: EntryId, key: VaultKey, steps: seq<Step>)
    requires SafeRun(Start(id, key), steps)
    ensures var w := Run(Start(id, key), steps);
            && (w.flight.Some? ==> w.flight.value.answer != Some(Stale))
            && (Quiescent(w) ==> Converged(w) && Undisturbed(w))
  {
    SafeRunKeepsInv(Start(id, key), steps);
    var w := Run(Start(id, key), steps);
    if Quiescent(w) {
      QuiescenceConverges(w);
    }
  }

  predicate AlwaysAcknowledged(steps: seq<Step>) {
    forall s | s in steps :: s != Lose
  }

  lemma {:induction false} AcknowledgedRunIsSafe(w: Sync, steps: seq<Step>)
    requires Inv(w) && w.lost == [] && (w.flight.None? ==> UpToDate(w)) && AlwaysAcknowledged(steps)
    ensures SafeRun(w, steps)
    decreases |steps|
  {
    hide Inv, Apply;
    if steps != [] {
      assert steps[0] in steps && forall s | s in steps[1..] :: s in steps;
      StepKeepsInv(w, steps[0]);
      StaysUpToDate(w, steps[0]);
      AcknowledgedRunIsSafe(Apply(w, steps[0]), steps[1..]);
    }
  }

  lemma StaysUpToDate(w: Sync, step: Step)
    requires Inv(w) && Safe(w, step) && step != Lose && w.lost == [] && (w.flight.None? ==> UpToDate(w))
    ensures Apply(w, step).lost == [] && (Apply(w, step).flight.None? ==> UpToDate(Apply(w, step)))
  {
  }

  /** While every push is acknowledged before the next, every run is safe: any edits, pushes,
      repeated commits, acknowledgments, blocks and pulls, in any order. */
  lemma AcknowledgedRunsNeverStale(id: EntryId, key: VaultKey, steps: seq<Step>)
    requires AlwaysAcknowledged(steps)
    ensures SafeRun(Start(id, key), steps)
    ensures var w := Run(Start(id, key), steps);
            && (w.flight.Some? ==> w.flight.value.answer != Some(Stale))
            && (w.flight.Some? && w.flight.value.answer.None? && !Recorded(w, w.flight.value.mutation) ==>
                  w.flight.value.mutation.baseRevision == ServerRevision(w))
            && (Quiescent(w) ==> Converged(w))
  {
    AcknowledgedRunIsSafe(Start(id, key), steps);
    SafeRunKeepsInv(Start(id, key), steps);
    SingleWriterConverges(id, key, steps);
  }

  // ------------------------------------------------------- the last edit

  /** One full round: an earlier push is finished, then the pending mutation is pushed. */
  function Drain(now: int): seq<Step> {
    [Unblock, Commit(now), Settle(now), Push, Commit(now), Settle(now)]
  }

  function Round(w: Sync, now: int): Sync {
    var settled := ApplySettle(ApplyCommit(WithStatus(w, Pending), now), now);
    ApplySettle(ApplyCommit(ApplyPush(settled), now), now)
  }

  lemma {:induction false} QuietRunIsSafe(w: Sync, steps: seq<Step>)
    requires forall s | s in steps :: !s.Write? && !s.Remove? && !s.Lose?
    ensures SafeRun(w, steps)
    decreases |steps|
  {
    hide Apply;
    if steps != [] {
      assert steps[0] in steps && forall s | s in steps[1..] :: s in steps;
      QuietRunIsSafe(Apply(w, steps[0]), steps[1..]);
    }
  }

  /** Draining is an ordinary run, and a safe one from anywhere. */
  lemma DrainIsARound(w: Sync, now: int)
    ensures Run(w, Drain(now)) == Round(w, now) && SafeRun(w, Drain(now))
  {
    hide WithStatus, ApplySettle, ApplyCommit, ApplyPush;
    var steps := Drain(now);
    assert steps[1..][1..] == steps[2..] && steps[2..][1..] == steps[3..] && steps[3..][1..] == steps[4..];
    assert steps[4..][1..] == steps[5..] && steps[5..][1..] == [];
    var w1 := Apply(w, steps[0]);
    var w2 := Apply(w1, steps[1]);
    var w3 := Apply(w2, steps[2]);
    var w4 := Apply(w3, steps[3]);
    var w5 := Apply(w4, steps[4]);
    assert Run(w4, steps[4..]) == Run(w5, steps[5..]) == Apply(w5, steps[5]);
    assert Run(w2, steps[2..]) == Run(w3, steps[3..]) == Run(w4, steps[4..]);
    QuietRunIsSafe(w, steps);
  }

  /** A handled push is settled: it is no longer in flight, and only a newer edit is still dirty. */
  lemma SettleFinishes(w: Sync, now: int)
    requires Inv(w) && (w.flight.Some? ==> w.flight.value.answer.Some?)
    ensures var next := ApplySettle(w, now);
            && Inv(next) && next.flight.None?
            && (next.client.dirty.Some? ==>
                  && w.client.dirty.Some? && next.client.dirty.value.status == w.client.dirty.value.status
                  && (w.flight.Some? ==> w.client.dirty.value.mutationId != w.flight.value.mutation.mutationId))
  {
    SettleKeepsInv(w, now);
  }

  lemma PushTakesOff(w: Sync)
    requires Inv(w) && w.flight.None? && (w.client.dirty.Some? ==> w.client.dirty.value.status == Pending)
    ensures var next := ApplyPush(w);
            && Inv(next) && next.client == w.client
            && (if w.client.dirty.None? then next == w
                else next.flight.Some? && next.flight.value.mutation == w.client.dirty.value)
  {
  }

  lemma CommitLeavesTheClient(w: Sync, now: int)
    ensures w.flight.None? ==> ApplyCommit(w, now) == w
    ensures ApplyCommit(w, now).client == w.client
  {
  }

  lemma RoundFinishes(w: Sync, now: int)
    requires Inv(w)
    ensures Quiescent(Round(w, now))
  {
    hide ServerInv, ClientInv, IdleInv, FlightInv, LostInv, ApplyCommit, ApplySettle, ApplyPush, Recorded;
    StatusKeepsInv(w, Pending);
    var w1 := WithStatus(w, Pending);
    CommitKeepsInv(w1, now);
    CommitLeavesTheClient(w1, now);
    var w2 := ApplyCommit(w1, now);
    SettleFinishes(w2, now);
    var w3 := ApplySettle(w2, now);
    PushTakesOff(w3);
    var w4 := ApplyPush(w3);
    CommitKeepsInv(w4, now);
    CommitLeavesTheClient(w4, now);
    SettleFinishes(ApplyCommit(w4, now), now);
  }

  lemma DrainKeepsTheEdit(w: Sync, now: int)
    ensures Run(w, Drain(now)).lastEdit == w.lastEdit
  {
    DrainIsARound(w, now);
  }

  /** From every safely reached state one more round leaves nothing to push, the rows converged and
      undisturbed by late arrivals, and what the user last did to the entry done at the server, if and
      only if that was not to remove the file, before any revision of it was known, during a push. */
  lemma LastEditWins(id: EntryId, key: VaultKey, steps: seq<Step>, now: int)
    requires SafeRun(Start(id, key), steps)
    ensures var w := Run(Start(id, key), steps);
            var drained := Run(w, Drain(now));
            && SafeRun(w, Drain(now))
            && Quiescent(drained) && Converged(drained) && Undisturbed(drained)
            && drained.lastEdit == w.lastEdit
            && (Fulfilled(drained) <==> !RemovedDuringFirstPush(w))
  {
    SafeRunKeepsInv(Start(id, key), steps);
    var w := Run(Start(id, key), steps);
    DrainIsARound(w, now);
    RoundFinishes(w, now);
    SafeRunKeepsInv(w, Drain(now));
    DrainKeepsTheEdit(w, now);
    QuiescenceConverges(Run(w, Drain(now)));
  }

  /** The failure in full: a new file is removed while its first push is in flight. The entry is
      dropped, the push is acknowledged, and the file is back, here and at the server. */
  lemma RemovalDuringFirstPushIsUndone(id: EntryId, key: VaultKey)
    ensures var steps := [Write("a.md", "h1", "b1", 1), Push, Remove("a.md", 2), Commit(3), Settle(4)];
            var w := Run(Start(id, key), steps);
            && SafeRun(Start(id, key), steps) && AlwaysAcknowledged(steps)
            && w.lastEdit == Some(Edit(Content(true, None, Some(Metadata("a.md", None))), 0, true))
            && ServerContent(w) == Some(Content(false, Some("b1"), Some(Metadata("a.md", Some("h1")))))
            && w.client.local == Some(LocalRow(Some("a.md"), Some("b1"), Some("h1"), false, 4, None, None))
  {
    var steps := [Write("a.md", "h1", "b1", 1), Push, Remove("a.md", 2), Commit(3), Settle(4)];
    var w1 := Apply(Start(id, key), steps[0]);
    var w2 := Apply(w1, steps[1]);
    var w3 := Apply(w2, steps[2]);
    var w4 := Apply(w3, steps[3]);
    assert steps[1..][1..] == steps[2..] && steps[2..][1..] == steps[3..] && steps[3..][1..] == steps[4..];
    assert steps[4..][1..] == [];
    assert Run(w3, steps[3..]) == Run(w4, steps[4..]) == Apply(w4, steps[4]);
    assert Run(w1, steps[1..]) == Run(w2, steps[2..]) == Run(w3, steps[3..]);
    AcknowledgedRunsNeverStale(id, key, steps);
  }

  // ------------------------------------------------- the condition is exact

  /** The next push is refused as stale, or nothing is left to push although the rows differ. */
  predicate RoundGoesWrong(w: Sync, now: int) {
    var pushed := ApplyCommit(ApplyPush(WithStatus(w, Pending)), now);
    || (pushed.flight.Some? && pushed.flight.value.answer == Some(Stale))
    || (Quiescent(pushed) && !UpToDate(pushed))
  }

  /** The next round goes wrong, as it is or after something lost arrives at the server first. */
  ghost predicate GoesWrong(w: Sync, now: int) {
    RoundGoesWrong(w, now) || exists index: nat :: RoundGoesWrong(ApplyArrive(w, index, now), now)
  }

  lemma NoRoundGoesWrong(w: Sync, now: int)
    requires Inv(w)
    ensures !RoundGoesWrong(w, now)
  {
    hide ApplyCommit, ApplyPush, WithStatus, Recorded, ServerInv, ClientInv, LostInv;
    StatusKeepsInv(w, Pending);
    PushKeepsInv(WithStatus(w, Pending));
    CommitKeepsInv(ApplyPush(WithStatus(w, Pending)), now);
    CommitLeavesTheClient(ApplyPush(WithStatus(w, Pending)), now);
  }

  lemma SafeNeverGoesWrong(w: Sync, now: int)
    requires Inv(w)
    ensures !GoesWrong(w, now)
  {
    hide Inv, RoundGoesWrong, ApplyArrive;
    NoRoundGoesWrong(w, now);
    forall index: nat
      ensures !RoundGoesWrong(ApplyArrive(w, index, now), now)
    {
      ArriveKeepsInv(w, index, now);
      NoRoundGoesWrong(ApplyArrive(w, index, now), now);
    }
  }

  /** An edit on an old revision is refused at once. */
  lemma OldEditGoesWrong(w: Sync, step: Step, now: int)
    requires Inv(w) && !Safe(w, step) && (step.Write? || step.Remove?) && !UpToDate(w)
    ensures RoundGoesWrong(Apply(w, step), now)
  {
  }

  /** An edit made while something late could still be applied is refused once that arrives. */
  lemma LateArrivalOvertakesEdit(w: Sync, step: Step, index: nat, now: int)
    requires Inv(w) && !Safe(w, step) && (step.Write? || step.Remove?) && UpToDate(w)
    requires index < |w.lost| && Applicable(w, w.lost[index])
    ensures RoundGoesWrong(ApplyArrive(Apply(w, step), index, now), now)
  {
    var m := w.lost[index];
    assert m in w.lost && Held(w, m);
  }

  lemma LosingIsAStep(w: Sync)
    ensures Apply(w, Lose) == ApplyLose(w)
  {
  }

  lemma UnsafeLossGoesWrong(w: Sync, now: int)
    requires Inv(w) && !Safe(w, Lose)
    ensures if Recorded(w, w.flight.value.mutation) then RoundGoesWrong(ApplyLose(w), now)
            else RoundGoesWrong(ApplyArrive(ApplyLose(w), |w.lost|, now), now)
  {
  }

  /** Safety of a step is exactly what the next push needs: in every safely reached state, a step is
      safe if and only if a round after it is neither stale nor silently out of date, whatever that
      was lost arrives first. */
  lemma SafeExactlyWhenNextPushIsAccepted(id: EntryId, key: VaultKey, steps: seq<Step>, step: Step, now: int)
    requires SafeRun(Start(id, key), steps)
    ensures var w := Run(Start(id, key), steps);
            Safe(w, step) <==> !GoesWrong(Apply(w, step), now)
  {
    SafeRunKeepsInv(Start(id, key), steps);
    var w := Run(Start(id, key), steps);
    hide Inv, RoundGoesWrong, ApplyArrive, Apply, ApplyLose;
    if Safe(w, step) {
      StepKeepsInv(w, step);
      SafeNeverGoesWrong(Apply(w, step), now);
    } else if step.Lose? {
      UnsafeLossGoesWrong(w, now);
      LosingIsAStep(w);
    } else if !UpToDate(w) {
      OldEditGoesWrong(w, step, now);
    } else {
      var index: nat :| index < |w.lost| && Applicable(w, w.lost[index]);
      LateArrivalOvertakesEdit(w, step, index, now);
    }
  }

  /** The first failure in full: a reply is lost, the file is edited again before a pull, and the
      second edit, made on the revision the client still believes in, is refused. */
  lemma EditAfterLostReplyIsStale(id: EntryId, key: VaultKey)
    ensures var steps := [Write("a.md", "h1", "b1", 1), Push, Commit(2), Lose, Write("a.md", "h2", "b2", 3), Push, Commit(4)];
            var w := Run(Start(id, key), steps);
            w.flight.Some? && w.flight.value.answer == Some(Stale)
  {
    var steps := [Write("a.md", "h1", "b1", 1), Push, Commit(2), Lose, Write("a.md", "h2", "b2", 3), Push, Commit(4)];
    SevenSteps(id, key, steps);
    var w3 := Apply(Apply(Apply(Start(id, key), steps[0]), steps[1]), steps[2]);
    assert ServerRevision(w3) == 1 && w3.server.value.lastMutationId == 0 && w3.nextMutation == 1;
    var w6 := Apply(Apply(Apply(w3, steps[3]), steps[4]), steps[5]);
    assert w6.server == w3.server && w6.flight.value.mutation.baseRevision == 0;
  }

  /** The second: a push is given up on before the server saw it, the file is edited again, and then
      the server handles the first push after all. */
  lemma LateArrivalMakesEditStale(id: EntryId, key: VaultKey)
    ensures var steps := [Write("a.md", "h1", "b1", 1), Push, Lose, Write("a.md", "h2", "b2", 2), Arrive(0, 3), Push, Commit(4)];
            var w := Run(Start(id, key), steps);
            w.flight.Some? && w.flight.value.answer == Some(Stale)
  {
    var steps := [Write("a.md", "h1", "b1", 1), Push, Lose, Write("a.md", "h2", "b2", 2), Arrive(0, 3), Push, Commit(4)];
    SevenSteps(id, key, steps);
  }

  lemma SevenSteps(id: EntryId, key: VaultKey, steps: seq<Step>)
    requires |steps| == 7
    ensures Run(Start(id, key), steps)
         == Apply(Apply(Apply(Apply(Apply(Apply(Apply(Start(id, key), steps[0]), steps[1]), steps[2]), steps[3]),
                              steps[4]), steps[5]), steps[6])
  {
    hide Apply;
    assert steps[1..][1..] == steps[2..] && steps[2..][1..] == steps[3..] && steps[3..][1..] == steps[4..];
    assert steps[4..][1..] == steps[5..] && steps[5..][1..] == steps[6..] && steps[6..][1..] == [];
    var w1 := Apply(Start(id, key), steps[0]);
    var w2 := Apply(w1, steps[1]);
    var w3 := Apply(w2, steps[2]);
    var w4 := Apply(w3, steps[3]);
    var w5 := Apply(w4, steps[4]);
    var w6 := Apply(w5, steps[5]);
    assert Run(w5, steps[5..]) == Run(w6, steps[6..]) == Apply(w6, steps[6]);
    assert Run(w3, steps[3..]) == Run(w4, steps[4..]) == Run(w5, steps[5..]);
    assert Run(w1, steps[1..]) == Run(w2, steps[2..]) == Run(w3, steps[3..]);
  }
}
