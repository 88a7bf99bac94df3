/** What each step of the client and the server does to one entry, field by field. */
module SyncEffects {
  import opened Wrappers
  import opened EntryPolicy
  import opened SyncStore
  import opened Convergence

  /** The client's own file is there, or the server's as last seen. */
  predicate Visible(client: EntryState) {
    || (client.local.Some? && client.local.value.deleted == false)
    || (client.remote.Some? && client.remote.value.deleted == false)
  }

  /** The client state after an edit: the mutation is made on the remote row, its metadata sealed for the
      revision after it, and the base row moves to what it was made on. */
  predicate MadeOnRemote(w: Sync, after: EntryState, op: Op, path: string, hash: Option<Hash>, blobId: Option<BlobId>) {
    && after.remote == w.client.remote && after.dirty.Some?
    && (var m := after.dirty.value;
        && m.mutationId == w.nextMutation && m.entryId == w.id && m.op == op && m.status == Pending
        && m.blobId == blobId && m.hash == hash
        && m.encryptedMetadata == SealedMetadata(w.key, MetadataContext(w.id, m.baseRevision + 1, op, blobId), Metadata(path, hash))
        && (w.client.remote.Some? ==>
              m.baseRevision == w.client.remote.value.revision && m.baseBlobId == w.client.remote.value.blobId
              && m.baseHash == w.client.remote.value.hash && after.base.deleted == w.client.remote.value.deleted)
        && (w.client.remote.None? ==> m.baseRevision == 0 && m.baseBlobId.None? && m.baseHash.None?)
        && after.base.revision == m.baseRevision && after.base.blobId == m.baseBlobId && after.base.hash == m.baseHash)
  }

  /** A write to this entry makes a pending upsert of the new content on the remote row, and shows it. */
  lemma WritesExactly(w: Sync, path: string, hash: Hash, blobId: BlobId, now: int)
    ensures var after := Convergence.Apply(w, Write(path, hash, blobId, now));
            var mine := w.lastEdit.None? || Visible(w.client) || (w.client.dirty.Some? && w.client.dirty.value.op == Delete);
            && (!mine ==> after == w)
            && (mine ==>
                  && MadeOnRemote(w, after.client, Upsert, path, Some(hash), Some(blobId))
                  && after.client.local == Some(LocalRow(Some(path), Some(blobId), Some(hash), false, now, None, None))
                  && after.lastEdit == Some(Edit(Content(false, Some(blobId), Some(Metadata(path, Some(hash)))),
                                                 if w.client.remote.Some? then w.client.remote.value.revision else 0, w.flight.Some?))
                  && after == w.(client := after.client, nextMutation := w.nextMutation + 1, lastEdit := after.lastEdit))
  {
  }

  /** Removing a visible file makes a pending delete on the remote row, or forgets the entry if no revision
      of it is known. */
  lemma RemovesExactly(w: Sync, path: string, now: int)
    ensures var after := Convergence.Apply(w, Remove(path, now));
            var known := w.client.remote.Some? && w.client.remote.value.revision != 0;
            && (!Visible(w.client) ==> after == w)
            && (Visible(w.client) ==>
                  && after.lastEdit == Some(Edit(Content(true, None, Some(Metadata(path, None))),
                                                 if w.client.remote.Some? then w.client.remote.value.revision else 0, w.flight.Some?))
                  && (known ==>
                        && MadeOnRemote(w, after.client, Delete, path, None, None)
                        && after.client.local == Some(LocalRow(None, None, None, true, now, None, None))
                        && after == w.(client := after.client, nextMutation := w.nextMutation + 1, lastEdit := after.lastEdit))
                  && (!known ==>
                        after == w.(client := EntryState(None, BaseRow(None, 0, None, None, true), None, None),
                                    lastEdit := after.lastEdit)))
  {
  }

  /** A push sends exactly a pending mutation whose metadata opens, when none is on its way. */
  lemma PushesExactly(w: Sync)
    ensures var after := Convergence.Apply(w, Push);
            var m := w.client.dirty;
            var box := if m.Some? then Some(m.value.encryptedMetadata) else None;
            var sends := && w.flight.None? && m.Some? && m.value.status == Pending && box.value.key == w.key
                         && box.value.context == MetadataContext(m.value.entryId, m.value.baseRevision + 1, m.value.op, m.value.blobId);
            after == if sends then w.(flight := Some(Flight(m.value, box.value.metadata, None))) else w
  {
  }

  /** What the server makes of a mutation: accepted again if it is the latest, stale on another revision,
      and else the row at the next revision, without content for a delete. */
  lemma HandlesExactly(server: Option<ServerRow>, m: PendingMutation, now: int)
    ensures var (after, answer) := Handle(server, m, now);
            var revision := if server.Some? then server.value.revision else 0;
            if server.Some? && server.value.lastMutationId == m.mutationId then after == server && answer == AcceptedAt(revision)
            else if m.baseRevision != revision then after == server && answer == Stale
            else
              && answer == AcceptedAt(revision + 1)
              && after == Some(ServerRow(revision + 1, if m.op == Delete then None else m.blobId, m.encryptedMetadata,
                                         m.op == Delete, m.mutationId))
  {
  }

  lemma CommitsExactly(w: Sync, index: nat, now: int)
    ensures Convergence.Apply(w, Commit(now))
         == if w.flight.None? then w
            else
              var (server, answer) := Handle(w.server, w.flight.value.mutation, now);
              w.(server := server, flight := Some(w.flight.value.(answer := Some(answer))))
    ensures Convergence.Apply(w, Arrive(index, now))
         == if index < |w.lost| then w.(server := Handle(w.server, w.lost[index], now).0) else w
    ensures Convergence.Apply(w, Lose)
         == if w.flight.Some? then w.(flight := None, lost := w.lost + [w.flight.value.mutation]) else w
  {
    hide Handle;
  }

  /** A reply ends the push: stale, it changes no row; accepted, the rows are acknowledged as what was
      pushed at the revision given, without content for a delete. */
  lemma SettlesExactly(w: Sync, now: int)
    requires w.flight.Some? && w.flight.value.answer.Some?
    ensures var after := Convergence.Apply(w, Settle(now));
            var f := w.flight.value;
            && after == w.(client := after.client, flight := None)
            && (f.answer == Some(Stale) ==> after.client == w.client)
            && (f.answer.value.AcceptedAt? ==>
                  exists item: Accepted ::
                    && after.client == Acknowledged(w.client, item, w.key).0
                    && item.mutation == f.mutation && item.metadata == f.metadata
                    && item.acceptedRevision == f.answer.value.revision && item.acceptedAt == now
                    && item.remoteBlobId == (if f.mutation.op == Delete then None else f.mutation.blobId)
                    && item.localHash == (if f.mutation.op == Delete then None else f.mutation.hash))
  {
    hide Acknowledged;
    if w.flight.value.answer.value.AcceptedAt? {
      var item := AcceptedItem(w.flight.value, w.flight.value.answer.value.revision, now);
      assert Convergence.Apply(w, Settle(now)).client == Acknowledged(w.client, item, w.key).0;
    }
  }

  /** A pull replaces the remote row by the server's, if its metadata opens for it; the base follows unless
      something is dirty. */
  lemma PullsExactly(w: Sync, now: int)
    ensures var after := Convergence.Apply(w, Pull(now));
            var opens := && w.server.Some? && w.server.value.encryptedMetadata.key == w.key
                         && w.server.value.encryptedMetadata.context
                            == MetadataContext(w.id, w.server.value.revision, if w.server.value.deleted then Delete else Upsert,
                                               w.server.value.blobId);
            && (!opens ==> after == w)
            && (opens ==>
                  var row, metadata := w.server.value, w.server.value.encryptedMetadata.metadata;
                  && after.client.remote == Some(RemoteRow(Some(metadata.path), row.revision, row.blobId, metadata.hash,
                                                           row.deleted, now))
                  && after.client.base == (if w.client.dirty.Some? then w.client.base
                                           else BaseRow(Some(metadata.path), row.revision, row.blobId, metadata.hash, row.deleted))
                  && after == w.(client := w.client.(remote := after.client.remote, base := after.client.base)))
  {
  }

  /** Blocking and unblocking change the dirty mutation's status, and settle its base on what it was made
      on again. */
  lemma BlocksExactly(w: Sync, reason: BlockedReason)
    ensures var blocked, unblocked := Convergence.Apply(w, Convergence.Block(reason)), Convergence.Apply(w, Unblock);
            && (w.client.dirty.None? ==> blocked == w && unblocked == w)
            && (w.client.dirty.Some? ==>
                  && blocked.client.dirty == Some(w.client.dirty.value.(status := Blocked(reason)))
                  && unblocked.client.dirty == Some(w.client.dirty.value.(status := Pending))
                  && blocked.client.local == unblocked.client.local == w.client.local
                  && blocked.client.remote == unblocked.client.remote == w.client.remote
                  && blocked.client.base.revision == w.client.dirty.value.baseRevision
                  && blocked == w.(client := blocked.client) && unblocked == w.(client := unblocked.client))
  {
  }
}
