/** What every run of devices and service keeps about a vault's key. */
module KeyDeliverySafety {
  import opened Wrappers
  import opened VaultCrypto
  import opened SharingTables
  import opened SharingService
  import opened SharingSafety
  import opened SharingEpochs
  import opened KeyDelivery

  // -------------------------------------------------------------- invariants

  /** The wrapper opens with the password it was sealed with, for this vault and user, to this key. */
  predicate Opens(e: PasswordEnvelope, v: VaultId, u: UserId, key: Bytes) {
    Unwrap(e.ciphertext.key.password, e, Some(Binding(v, u))) == Ok(key)
  }

  predicate GoodWrapper(o: Fleet, v: VaultId, u: UserId, e: PasswordEnvelope) {
    v in o.vaultKeys && Opens(e, v, u, o.vaultKeys[v])
  }

  /** The transfer holds the vault's key, sealed to the request's own receiver and context. */
  predicate GoodTransfer(o: Fleet, id: RequestId, r: KeyRequest, e: TransferEnvelope) {
    && r.vault in o.vaultKeys && ValidContext(ContextOf(id, r))
    && e == TransferEnvelope(1, TRANSFER_ALGORITHM, RsaOaep(r.publicKey, ContextOf(id, r), o.vaultKeys[r.vault]))
  }

  predicate GoodRow(o: Fleet, id: RequestId, r: KeyRequest) {
    && (r.envelope.Some? ==> GoodTransfer(o, id, r, r.envelope.value))
    && (r.status.Completed? ==> id in o.issued)
    && id < o.nextId
  }

  predicate CallSound(o: Fleet, call: Call) {
    match call
    case Start(_, _, id, _) => id < o.nextId
    case Approve(_, v, id, e) =>
      id in o.world.db.requests && o.world.db.requests[id].vault == v && GoodTransfer(o, id, o.world.db.requests[id], e)
    case Complete(u, v, id, e) => GoodWrapper(o, v, u, e) && id in o.issued && o.issued[id] == e
    case _ => true
  }

  /** A start call for the stored receiver is the device's own. */
  predicate CallFits(d: Device, receiver: Receiver, call: Call) {
    call.Start? && call.request == receiver.id ==>
      call.user == d.user && call.vault == d.vault && call.publicKey == receiver.keyPair
  }

  /** The stored receiver: what it prepared opens, what was sent for it is what it prepared, and the
      request and calls under its id are its own. */
  predicate ReceiverSound(o: Fleet, d: Device, r: Receiver) {
    && r.id < o.nextId
    && (r.prepared.Some? ==>
          GoodWrapper(o, d.vault, d.user, r.prepared.value)
          && AcceptableEnvelope(r.prepared.value, d.vault, d.user, KEY_VERSION))
    && (r.id in o.issued ==> r.prepared == Some(o.issued[r.id]))
    && (r.id in o.world.db.requests ==> IsRecipient(d, r, o.world.db.requests[r.id]))
    && (forall t | t in o.world.threads :: CallFits(d, r, o.world.threads[t].call))
  }

  predicate ActivitySound(o: Fleet, d: Device) {
    match d.activity
    case Starting(c) => d.receiver == Some(c)
    case Receiving(_, c) => d.receiver == Some(c)
    case Fetched(_, c, row) => d.receiver == Some(c) && IsRecipient(d, c, row) && GoodRow(o, c.id, row)
    case Unlocked(_, c, key) => d.receiver == Some(c) && d.vault in o.vaultKeys && key == o.vaultKeys[d.vault]
    case Prepared(c) =>
      && d.receiver.Some? && d.receiver.value.prepared.None? && c.prepared.Some?
      && c == d.receiver.value.(prepared := c.prepared) && GoodWrapper(o, d.vault, d.user, c.prepared.value)
      && AcceptableEnvelope(c.prepared.value, d.vault, d.user, KEY_VERSION)
    case Persisted(c) => d.receiver == Some(c) && c.prepared.Some?
    case _ => true
  }

  predicate DeviceSound(o: Fleet, d: Device) {
    && d.user != NO_ID && d.vault != NO_ID
    && (d.session.Some? ==> d.vault in o.vaultKeys && d.session.value == o.vaultKeys[d.vault])
    && (d.receiver.Some? ==> ReceiverSound(o, d, d.receiver.value))
    && ActivitySound(o, d)
  }

  predicate WriterSound(o: Fleet, k: (VaultId, UserId)) {
    k in o.writers && o.writers[k].ByRequest? ==>
      && o.writers[k].request in o.issued && k in o.world.db.wrappers
      && o.world.db.wrappers[k].envelope == o.issued[o.writers[k].request]
  }

  predicate ReceiversDiffer(o: Fleet) {
    forall i, j | i in o.devices && j in o.devices && o.devices[i].receiver.Some? && o.devices[j].receiver.Some?
                  && o.devices[i].receiver.value.id == o.devices[j].receiver.value.id :: i == j
  }

  ghost predicate FleetInv(o: Fleet) {
    && Inv(o.world)
    && (forall v | v in o.vaultKeys :: |o.vaultKeys[v]| == VAULT_KEY_BYTES)
    && (forall k | k in o.world.db.wrappers :: GoodWrapper(o, k.0, k.1, o.world.db.wrappers[k].envelope))
    && (forall id | id in o.world.db.requests :: GoodRow(o, id, o.world.db.requests[id]))
    && (forall t | t in o.world.threads :: CallSound(o, o.world.threads[t].call))
    && (forall i | i in o.devices :: DeviceSound(o, o.devices[i]))
    && ReceiversDiffer(o)
    && (forall id | id in o.issued :: id < o.nextId)
    && (forall v: VaultId, u: UserId :: WriterSound(o, (v, u)))
  }

  // ------------------------------------------------------ steps of the service

  /** What one unattended service step can do to keys: rows, calls and wrappers stay, or come from
      calls that were sound. */
  predicate RowServed(o: Fleet, id: RequestId, after: KeyRequest) {
    if id in o.world.db.requests then SameIdentity(o.world.db.requests[id], after) && GoodRow(o, id, after)
    else
      && GoodRow(o, id, after)
      && exists t | t in o.world.threads ::
           var call := o.world.threads[t].call;
           call.Start? && call.request == id && call.user == after.user && call.vault == after.vault
           && call.publicKey == after.publicKey
  }

  predicate CallServed(o: Fleet, t: ThreadId, call: Call) {
    (t in o.world.threads && o.world.threads[t].call == call) || call.Invite? || call.Respond? || call.ChangeMember?
  }

  ghost predicate Served(o: Fleet, after: World, writers: map<(VaultId, UserId), Writer>) {
    && Inv(after)
    && (forall id | id in o.world.db.requests :: id in after.db.requests)
    && (forall id | id in after.db.requests :: RowServed(o, id, after.db.requests[id]))
    && (forall t | t in after.threads :: CallServed(o, t, after.threads[t].call))
    && (forall k | k in after.db.wrappers :: GoodWrapper(o, k.0, k.1, after.db.wrappers[k].envelope))
    && (forall v: VaultId, u: UserId :: WriterSound(o.(world := after, writers := writers), (v, u)))
  }

  /** What the service has established about keys when it runs a statement. */
  predicate Delivers(o: Fleet, s: Statement) {
    match s
    case InsertRequest(id, row, _) =>
      && GoodRow(o, id, row)
      && exists t | t in o.world.threads ::
           var call := o.world.threads[t].call;
           call.Start? && call.request == id && call.user == row.user && call.vault == row.vault && call.publicKey == row.publicKey
    case ApproveRequest(id, _, e) => id in o.world.db.requests && GoodTransfer(o, id, o.world.db.requests[id], e)
    case CompleteRequest(id, row, e) => GoodWrapper(o, row.vault, row.user, e) && id in o.issued && o.issued[id] == e
    case ReplaceWrapper(_, _, _) => false
    case InsertVault(_, _, _, _, _) => false
    case _ => true
  }

  /** The statements that a call can run. */
  predicate StatementOfCall(w: World, th: Thread, s: Statement) {
    match th.call
    case Start(_, _, id, _) => s.Enroll? || (s.InsertRequest? && s.request == id && s.row == NewRequest(th, w.now))
    case Approve(_, _, id, e) => s.ApproveRequest? && s.request == id && s.transfer == e
    case Complete(_, _, id, e) =>
      || s.Queue?
      || (s.CompleteRequest? && th.pc.Write? && th.row.Some? && s.request == id && s.row == th.row.value && s.envelope == e)
    case _ => s.InsertInvitation? || s.UpdateInvitation? || s.Accept? || s.UpdateRole? || s.Remove?
  }

  lemma KeyCallStatements(w: World, th: Thread, enabled: bool, freshId: InvitationId)
    requires th.call.Start? || th.call.Approve? || th.call.Complete?
    ensures var s := Next(w, th, enabled, freshId).statement;
            s.Some? ==> StatementOfCall(w, th, s.value)
  {
    hide ReadVault, ReadMember, LiveVault, IsMember, AcceptableEnvelope, PasswordWrapper, NewRequest;
  }

  lemma OtherCallStatements(w: World, th: Thread, enabled: bool, freshId: InvitationId)
    requires th.call.Invite? || th.call.Respond? || th.call.ChangeMember?
    ensures var s := Next(w, th, enabled, freshId).statement;
            s.Some? ==> StatementOfCall(w, th, s.value)
  {
    hide LiveInvitation, Lower, Trim;
  }

  lemma ThreadDelivers(o: Fleet, t: ThreadId, enabled: bool, freshId: InvitationId)
    requires FleetInv(o) && t in o.world.threads
    ensures var s := Next(o.world, o.world.threads[t], enabled, freshId).statement;
            s.Some? ==> Delivers(o, s.value)
  {
    var th := o.world.threads[t];
    assert CallSound(o, th.call) && ThreadRules(o.world, th);
    hide FleetInv, Next, Fresh, Opens, GoodTransfer;
    if th.call.Start? || th.call.Approve? || th.call.Complete? {
      KeyCallStatements(o.world, th, enabled, freshId);
    } else {
      OtherCallStatements(o.world, th, enabled, freshId);
    }
    if th.call.Start? {
      NewRequestIsPlain(th, o.world.now);
      assert NewRequest(th, o.world.now).publicKey == th.call.publicKey;
    }
    hide NewRequest;
  }

  lemma StepDelivers(o: Fleet, step: Step)
    requires FleetInv(o) && Unattended(step)
    ensures StatementOf(o.world, step).Some? ==> Delivers(o, StatementOf(o.world, step).value)
  {
    hide FleetInv, Next;
    if step.Advance? && step.thread in o.world.threads {
      ThreadDelivers(o, step.thread, step.sharingEnabled, step.freshId);
      hide Delivers;
    } else if step.Administer? && Administrative(step.statement) {
      AdministrationDelivers(o, step.statement);
      hide Delivers;
    }
  }

  lemma AdministrationDelivers(o: Fleet, s: Statement)
    requires Administrative(s) && !s.ReplaceWrapper? && !s.InsertVault?
    ensures Delivers(o, s)
  {
  }

  lemma RequestsServed(o: Fleet, s: Statement)
    requires FleetInv(o) && Delivers(o, s)
    ensures var after := Exec(o.world, s).0.db.requests;
            forall id | id in after :: RowServed(o, id, after[id])
  {
    hide FleetInv, Exec, Execute, Opens, GoodTransfer, MayApprove, MayComplete, MayChangePassword;
    var after := Exec(o.world, s).0.db.requests;
    RequestsKeepIdentity(o.world, s);
    assert forall id | id in o.world.db.requests :: GoodRow(o, id, o.world.db.requests[id]) by { RowsAreGood(o); }
    Untouched(o.world, s);
    if WritesRequests(s) {
      RequestsAfter(o.world, s);
      WrittenRowsServed(o, s);
    }
  }

  lemma RowsAreGood(o: Fleet)
    requires FleetInv(o)
    ensures forall id | id in o.world.db.requests :: GoodRow(o, id, o.world.db.requests[id])
  {
  }

  lemma WrittenRowsServed(o: Fleet, s: Statement)
    requires WritesRequests(s) && Delivers(o, s)
    requires forall id | id in o.world.db.requests :: GoodRow(o, id, o.world.db.requests[id])
    ensures var after := WrittenRequests(o.world.db, s, o.world.now);
            forall id | id in after :: RowServed(o, id, after[id])
  {
    hide Opens, IsVaultManager, Enrolled, IsMember, LiveVault, MayChangePassword, VaultIdsOf;
    match s
    case Remove(_, _) =>
    case InsertRequest(_, _, _) =>
    case ApproveRequest(id, _, e) =>
      assert forall r: KeyRequest ::
        SameIdentity(r, o.world.db.requests[id]) ==> (GoodTransfer(o, id, r, e) <==> GoodTransfer(o, id, o.world.db.requests[id], e));
    case CompleteRequest(_, _, _) =>
    case ReplaceWrapper(_, _, _) =>
    case Prune =>
  }

  /** The wrapper a statement's completion writes, if it completes. */
  function Written(w: World, s: Statement): Option<((VaultId, UserId), PasswordEnvelope)> {
    if s.CompleteRequest? && MayComplete(w.db, s.request, s.row, w.now) then Some(((s.row.vault, s.row.user), s.envelope))
    else None
  }

  /** Envelopes stay, but for the one written. */
  predicate WrappersMove(before: map<(VaultId, UserId), Wrapper>, after: map<(VaultId, UserId), Wrapper>,
                         written: Option<((VaultId, UserId), PasswordEnvelope)>)
  {
    && (forall k | k in before ::
          k in after && (after[k].envelope == before[k].envelope || written == Some((k, after[k].envelope))))
    && (forall k | k in after :: k in before || written == Some((k, after[k].envelope)))
    && (written.Some? ==> written.value.0 in after && after[written.value.0].envelope == written.value.1)
  }

  lemma RevokingMovesNothing(wrappers: map<(VaultId, UserId), Wrapper>, vaults: set<VaultId>, u: UserId, now: int)
    ensures WrappersMove(wrappers, RevokeWrappers(wrappers, vaults, u, now), None)
  {
  }

  lemma WritingMovesOne(wrappers: map<(VaultId, UserId), Wrapper>, k: (VaultId, UserId), wrapper: Wrapper)
    ensures WrappersMove(wrappers, wrappers[k := wrapper], Some((k, wrapper.envelope)))
  {
  }

  lemma WrappersServed(o: Fleet, s: Statement)
    requires Delivers(o, s)
    ensures WrappersMove(o.world.db.wrappers, Exec(o.world, s).0.db.wrappers, Written(o.world, s))
  {
    hide Exec, Execute, MayComplete, GoodWrapper, GoodTransfer, GoodRow, RevokeWrappers;
    if s.Remove? {
      WrappersAfter(o.world, s);
      RevokingMovesNothing(o.world.db.wrappers, VaultIdsOf(o.world.db.vaults, s.org), s.user, o.world.now);
    } else if s.CompleteRequest? {
      WrappersAfter(o.world, s);
      WritingMovesOne(o.world.db.wrappers, (s.row.vault, s.row.user),
                      WrittenWrapper(o.world.db, s.row.vault, s.row.user, s.envelope));
    } else {
      Untouched(o.world, s);
    }
  }

  lemma MovedWrappersAreGood(o: Fleet, before: map<(VaultId, UserId), Wrapper>, after: map<(VaultId, UserId), Wrapper>,
                             written: Option<((VaultId, UserId), PasswordEnvelope)>)
    requires WrappersMove(before, after, written)
    requires forall k | k in before :: GoodWrapper(o, k.0, k.1, before[k].envelope)
    requires written.Some? ==> GoodWrapper(o, written.value.0.0, written.value.0.1, written.value.1)
    ensures forall k | k in after :: GoodWrapper(o, k.0, k.1, after[k].envelope)
  {
    hide GoodWrapper;
  }

  lemma WrappersStayGood(o: Fleet, s: Statement)
    requires FleetInv(o) && Delivers(o, s)
    ensures var after := Exec(o.world, s).0.db.wrappers;
            forall k | k in after :: GoodWrapper(o, k.0, k.1, after[k].envelope)
  {
    hide Exec, WrappersMove, GoodWrapper, GoodTransfer, GoodRow, MayComplete, Inv, CallSound, DeviceSound;
    WrappersServed(o, s);
    MovedWrappersAreGood(o, o.world.db.wrappers, Exec(o.world, s).0.db.wrappers, Written(o.world, s));
  }

  lemma WrappersAfter(w: World, s: Statement)
    requires s.Remove? || s.CompleteRequest?
    ensures Exec(w, s).0.db.wrappers ==
              if s.Remove? then RevokeWrappers(w.db.wrappers, VaultIdsOf(w.db.vaults, s.org), s.user, w.now)
              else if MayComplete(w.db, s.request, s.row, w.now) then
                w.db.wrappers[(s.row.vault, s.row.user) := WrittenWrapper(w.db, s.row.vault, s.row.user, s.envelope)]
              else w.db.wrappers
  {
    hide RevokeWrappers, WrittenWrapper, MayComplete, Queued, CountRemoval, VaultIdsOf;
  }

  lemma WritersServed(o: Fleet, s: Statement, v: VaultId, u: UserId)
    requires Delivers(o, s) && WriterSound(o, (v, u))
    ensures WriterSound(o.(world := Exec(o.world, s).0, writers := WriterAfter(o, Some(s))), (v, u))
  {
    WrappersServed(o, s);
    hide Exec, MayComplete, GoodWrapper, GoodTransfer, GoodRow;
  }

  lemma StatementServed(o: Fleet, s: Statement)
    requires FleetInv(o) && Delivers(o, s) && Justified(o.world, s)
    ensures Served(o, Exec(o.world, s).0, WriterAfter(o, Some(s)))
  {
    hide Exec, Inv, GoodWrapper, WriterSound, GoodRow, Delivers, Justified, SameIdentity, WriterAfter;
    ExecKeepsInv(o.world, s);
    RequestsServed(o, s);
    RequestsKeepIdentity(o.world, s);
    WrappersStayGood(o, s);
    forall v: VaultId, u: UserId
      ensures WriterSound(o.(world := Exec(o.world, s).0, writers := WriterAfter(o, Some(s))), (v, u))
    {
      WritersServed(o, s, v, u);
    }
    Untouched(o.world, s);
  }

  lemma NothingServed(o: Fleet)
    requires FleetInv(o)
    ensures Served(o, o.world, o.writers)
  {
    hide Inv, GoodWrapper, GoodRow;
    forall v: VaultId, u: UserId
      ensures WriterSound(o.(world := o.world, writers := o.writers), (v, u))
    {
      assert WriterSound(o, (v, u));
    }
    hide WriterSound;
  }

  lemma SameTablesServed(o: Fleet, executed: World, after: World, writers: map<(VaultId, UserId), Writer>)
    requires Served(o, executed, writers) && Inv(after) && after.db == executed.db
    requires forall t | t in after.threads :: CallServed(o, t, after.threads[t].call)
    ensures Served(o, after, writers)
  {
    hide Inv, GoodWrapper, GoodRow, RowServed, CallServed;
    forall v: VaultId, u: UserId
      ensures WriterSound(o.(world := after, writers := writers), (v, u))
    {
      assert WriterSound(o.(world := executed, writers := writers), (v, u));
    }
    hide WriterSound;
  }

  lemma UnattendedServed(o: Fleet, step: Step)
    requires FleetInv(o) && Unattended(step)
    ensures Served(o, SharingService.Apply(o.world, step), WriterAfter(o, StatementOf(o.world, step)))
  {
    hide FleetInv, Inv, SharingService.Apply, StatementOf, Exec, Served, Delivers, Justified;
    InvOfFleet(o);
    StepIsItsStatement(o.world, step);
    StepKeepsInv(o.world, step);
    CallsServed(o, step);
    var s := StatementOf(o.world, step);
    if s.Some? {
      StepDelivers(o, step);
      StatementServed(o, s.value);
      SameTablesServed(o, Exec(o.world, s.value).0, SharingService.Apply(o.world, step), WriterAfter(o, s));
    } else {
      NothingServed(o);
      SameTablesServed(o, o.world, SharingService.Apply(o.world, step), WriterAfter(o, s));
    }
  }

  lemma InvOfFleet(o: Fleet)
    requires FleetInv(o)
    ensures Inv(o.world)
  {
  }

  lemma CallsServed(o: Fleet, step: Step)
    requires Unattended(step)
    ensures var after := SharingService.Apply(o.world, step);
            forall t | t in after.threads :: CallServed(o, t, after.threads[t].call)
  {
    hide Execute, CountRemoval;
    match step
    case Advance(t, enabled, freshId) =>
      if t in o.world.threads {
        NextIsSameCall(o.world, o.world.threads[t], enabled, freshId);
        var action := Next(o.world, o.world.threads[t], enabled, freshId);
        if action.statement.Some? {
          Untouched(o.world, action.statement.value);
        }
        hide Next, Exec;
      }
    case Administer(s) =>
      if Administrative(s) {
        Untouched(o.world, s);
        hide Exec;
      }
    case _ =>
  }

  lemma NextIsSameCall(w: World, th: Thread, enabled: bool, freshId: InvitationId)
    ensures var action := Next(w, th, enabled, freshId);
            action.onSuccess.call == th.call && action.onFailure.call == th.call
  {
    hide LiveVault, IsMember, LiveInvitation, Lower, Trim, ReadVault, ReadMember, AcceptableEnvelope, NewRequest;
  }

  // -------------------------------------------------------- keeping the rules

  lemma GrowingKeepsGood(o: Fleet, next: Fleet)
    requires Grows(o, next)
    ensures forall v, u, e :: GoodWrapper(o, v, u, e) ==> GoodWrapper(next, v, u, e)
    ensures forall id, r, e :: GoodTransfer(o, id, r, e) ==> GoodTransfer(next, id, r, e)
    ensures forall id, r :: GoodRow(o, id, r) ==> GoodRow(next, id, r)
  {
    hide Opens, ValidContext;
  }

  lemma CallStaysSound(o: Fleet, next: Fleet, call: Call)
    requires Grows(o, next) && CallSound(o, call)
    requires forall id | id in o.world.db.requests ::
               id in next.world.db.requests && SameIdentity(o.world.db.requests[id], next.world.db.requests[id])
    ensures CallSound(next, call)
  {
    GrowingKeepsGood(o, next);
    hide Opens, ValidContext;
  }

  lemma ActivityStaysSound(o: Fleet, next: Fleet, d: Device)
    requires Grows(o, next) && ActivitySound(o, d)
    ensures ActivitySound(next, d)
  {
    GrowingKeepsGood(o, next);
    hide GoodWrapper, GoodRow, GoodTransfer;
  }

  /** A device is unaffected by new facts that are not about its own receiver. */
  lemma DeviceStaysSound(o: Fleet, next: Fleet, d: Device)
    requires Grows(o, next) && DeviceSound(o, d)
    requires d.receiver.Some? ==>
               && (d.receiver.value.id in next.issued ==> d.receiver.value.id in o.issued)
               && (d.receiver.value.id in next.world.db.requests ==>
                     IsRecipient(d, d.receiver.value, next.world.db.requests[d.receiver.value.id]))
               && (forall t | t in next.world.threads :: CallFits(d, d.receiver.value, next.world.threads[t].call))
    ensures DeviceSound(next, d)
  {
    GrowingKeepsGood(o, next);
    ActivityStaysSound(o, next, d);
    hide GoodWrapper, GoodRow, GoodTransfer, ActivitySound;
  }

  /** A step of the tables: rows, calls and wrappers come from what was there. */
  lemma TablesStepKeepsInv(o: Fleet, next: Fleet)
    requires FleetInv(o) && Grows(o, next) && next.devices == o.devices && next.issued == o.issued && Inv(next.world)
    requires forall v | v in next.vaultKeys :: |next.vaultKeys[v]| == VAULT_KEY_BYTES
    requires forall id | id in o.world.db.requests :: id in next.world.db.requests
    requires forall id | id in next.world.db.requests :: RowServed(o, id, next.world.db.requests[id])
    requires forall t | t in next.world.threads :: CallServed(o, t, next.world.threads[t].call)
    requires forall k | k in next.world.db.wrappers :: GoodWrapper(next, k.0, k.1, next.world.db.wrappers[k].envelope)
    requires forall v: VaultId, u: UserId :: WriterSound(next, (v, u))
    ensures FleetInv(next)
  {
    GrowingKeepsGood(o, next);
    hide Inv, GoodWrapper, GoodRow, GoodTransfer, WriterSound, Opens;
    forall t | t in next.world.threads
      ensures CallSound(next, next.world.threads[t].call)
    {
      if t in o.world.threads && o.world.threads[t].call == next.world.threads[t].call {
        assert CallSound(o, o.world.threads[t].call);
        CallStaysSound(o, next, o.world.threads[t].call);
      }
    }
    forall i | i in next.devices
      ensures DeviceSound(next, next.devices[i])
    {
      assert DeviceSound(o, o.devices[i]);
      TablesKeepDevice(o, next, o.devices[i]);
    }
  }

  lemma TablesKeepDevice(o: Fleet, next: Fleet, d: Device)
    requires Grows(o, next) && next.issued == o.issued && DeviceSound(o, d)
    requires forall id | id in next.world.db.requests :: RowServed(o, id, next.world.db.requests[id])
    requires forall t | t in next.world.threads :: CallServed(o, t, next.world.threads[t].call)
    ensures DeviceSound(next, d)
  {
    hide GoodWrapper, GoodRow, GoodTransfer, ActivitySound;
    if d.receiver.Some? {
      var r := d.receiver.value;
      assert ReceiverSound(o, d, r);
      if r.id in next.world.db.requests {
        assert RowServed(o, r.id, next.world.db.requests[r.id]);
      }
    }
    DeviceStaysSound(o, next, d);
  }

  lemma ServeKeepsInv(o: Fleet, step: Step)
    requires FleetInv(o)
    ensures FleetInv(StepFleet(o, Serve(step)))
  {
    if Unattended(step) {
      UnattendedServed(o, step);
      var next := StepFleet(o, Serve(step));
      assert forall v | v in next.vaultKeys :: |next.vaultKeys[v]| == VAULT_KEY_BYTES;
      GrowingKeepsGood(o, next);
      hide FleetInv, Inv, GoodWrapper, GoodRow, SharingService.Apply, StatementOf, WriterAfter, RowServed, CallServed;
      SameWriters(o, next);
      TablesStepKeepsInv(o, next);
    }
  }

  lemma SameWriters(o: Fleet, next: Fleet)
    requires next == o.(world := next.world, writers := next.writers)
    ensures forall k :: WriterSound(o.(world := next.world, writers := next.writers), k) ==> WriterSound(next, k)
  {
  }

  // ------------------------------------------------------ steps of the devices

  /** A device's own step: it may place one call about its own receiver and issue its own wrapper. */
  lemma DeviceStepKeepsInv(o: Fleet, next: Fleet, i: DeviceId)
    requires FleetInv(o) && Grows(o, next) && i in o.devices && Inv(next.world)
    requires next.world.db == o.world.db && next.vaultKeys == o.vaultKeys && next.writers == o.writers
    requires next.devices.Keys == o.devices.Keys && forall j | j in o.devices && j != i :: next.devices[j] == o.devices[j]
    requires DeviceSound(next, next.devices[i]) && ReceiversDiffer(next)
    requires forall id | id in next.issued ::
               id < next.nextId && (id in o.issued || OwnReceiver(o.devices[i], id))
    requires forall t | t in next.world.threads ::
               (t in o.world.threads && o.world.threads[t].call == next.world.threads[t].call)
               || (CallSound(next, next.world.threads[t].call)
                   && (next.world.threads[t].call.Start? ==> OwnReceiver(o.devices[i], next.world.threads[t].call.request)))
    ensures FleetInv(next)
  {
    GrowingKeepsGood(o, next);
    DeviceStepKeepsCalls(o, next);
    DeviceStepKeepsDevices(o, next, i);
    DeviceStepKeepsWriters(o, next);
    hide Inv, Grows, GoodWrapper, GoodRow, WriterSound, DeviceSound, CallSound, OwnReceiver;
  }

  lemma DeviceStepKeepsCalls(o: Fleet, next: Fleet)
    requires FleetInv(o) && Grows(o, next) && next.world.db == o.world.db
    requires forall t | t in next.world.threads ::
               (t in o.world.threads && o.world.threads[t].call == next.world.threads[t].call)
               || CallSound(next, next.world.threads[t].call)
    ensures forall t | t in next.world.threads :: CallSound(next, next.world.threads[t].call)
  {
    hide Inv, Grows, CallSound, DeviceSound, WriterSound, GoodWrapper, GoodRow, ReceiversDiffer;
    forall t | t in next.world.threads
      ensures CallSound(next, next.world.threads[t].call)
    {
      if t in o.world.threads && o.world.threads[t].call == next.world.threads[t].call {
        assert CallSound(o, o.world.threads[t].call);
        CallStaysSound(o, next, o.world.threads[t].call);
      }
    }
  }

  lemma DeviceStepKeepsDevices(o: Fleet, next: Fleet, i: DeviceId)
    requires FleetInv(o) && Grows(o, next) && i in o.devices && next.world.db == o.world.db
    requires next.devices.Keys == o.devices.Keys && forall j | j in o.devices && j != i :: next.devices[j] == o.devices[j]
    requires DeviceSound(next, next.devices[i])
    requires forall id | id in next.issued :: id in o.issued || OwnReceiver(o.devices[i], id)
    requires forall t | t in next.world.threads ::
               (t in o.world.threads && o.world.threads[t].call == next.world.threads[t].call)
               || (next.world.threads[t].call.Start? ==> OwnReceiver(o.devices[i], next.world.threads[t].call.request))
    ensures forall j | j in next.devices :: DeviceSound(next, next.devices[j])
  {
    hide Inv, Grows, CallSound, DeviceSound, WriterSound, GoodWrapper, GoodRow, ReceiversDiffer, OwnReceiver;
    forall j | j in next.devices
      ensures DeviceSound(next, next.devices[j])
    {
      if j != i {
        assert DeviceSound(o, o.devices[j]);
        OthersStaySound(o, next, i, j);
      }
    }
  }

  lemma DeviceStepKeepsWriters(o: Fleet, next: Fleet)
    requires FleetInv(o) && Grows(o, next) && next.world.db == o.world.db && next.writers == o.writers
    ensures forall v: VaultId, u: UserId :: WriterSound(next, (v, u))
  {
    hide Inv, CallSound, DeviceSound, GoodWrapper, GoodRow, ReceiversDiffer;
    forall v: VaultId, u: UserId
      ensures WriterSound(next, (v, u))
    {
      assert WriterSound(o, (v, u));
    }
  }

  predicate OwnReceiver(d: Device, id: RequestId) {
    d.receiver.Some? && d.receiver.value.id == id
  }

  lemma OthersStaySound(o: Fleet, next: Fleet, i: DeviceId, j: DeviceId)
    requires Grows(o, next) && ReceiversDiffer(o) && i in o.devices && j in o.devices && i != j && DeviceSound(o, o.devices[j])
    requires next.world.db == o.world.db
    requires forall id | id in next.issued :: id in o.issued || OwnReceiver(o.devices[i], id)
    requires forall t | t in next.world.threads ::
               (t in o.world.threads && o.world.threads[t].call == next.world.threads[t].call)
               || (next.world.threads[t].call.Start? ==> OwnReceiver(o.devices[i], next.world.threads[t].call.request))
    ensures DeviceSound(next, o.devices[j])
  {
    hide GoodWrapper, GoodRow, GoodTransfer, ActivitySound;
    var d := o.devices[j];
    if d.receiver.Some? {
      assert ReceiverSound(o, d, d.receiver.value);
      assert !OwnReceiver(o.devices[i], d.receiver.value.id);
      forall t | t in next.world.threads
        ensures CallFits(d, d.receiver.value, next.world.threads[t].call)
      {
      }
    }
    DeviceStaysSound(o, next, d);
  }

  /** Steps that change only what the device remembers, with its receiver as it was. */
  lemma RememberingKeepsInv(o: Fleet, i: DeviceId, d: Device, nextId: nat)
    requires FleetInv(o) && i in o.devices && o.nextId <= nextId
    requires d.user == o.devices[i].user && d.vault == o.devices[i].vault && d.receiver == o.devices[i].receiver
    requires d.session.Some? ==> d.vault in o.vaultKeys && d.session.value == o.vaultKeys[d.vault]
    requires ActivitySound(o, d)
    ensures FleetInv(WithDevice(o.(nextId := nextId), i, d))
  {
    hide Inv, GoodWrapper, GoodRow, GoodTransfer, Opens, WriterSound;
    var next := WithDevice(o.(nextId := nextId), i, d);
    assert DeviceSound(o, o.devices[i]);
    assert DeviceSound(o, d);
    DeviceStaysSound(o, next, d);
    hide DeviceSound, CallSound;
    DeviceStepKeepsInv(o, next, i);
  }

  lemma OpenedKeyIsTheVaults(o: Fleet, d: Device, e: PasswordEnvelope, password: Password)
    requires GoodWrapper(o, d.vault, d.user, e)
    ensures Unwrap(password, e, BindingOf(d)).Ok? ==> Unwrap(password, e, BindingOf(d)).value == o.vaultKeys[d.vault]
  {
    UnwrapRevealsOnlyTheSealedKey(password, e, BindingOf(d));
    UnwrapRevealsOnlyTheSealedKey(e.ciphertext.key.password, e, BindingOf(d));
  }

  lemma FreshWrapperIsGood(o: Fleet, d: Device, password: Password, key: Bytes, binding: Option<Binding>, salt: Salt, nonce: Nonce)
    requires d.vault in o.vaultKeys && key == o.vaultKeys[d.vault] && d.user != NO_ID && d.vault != NO_ID
    requires binding == None || binding == BindingOf(d)
    ensures Wrap(password, key, binding, salt, nonce).Ok? ==>
              GoodWrapper(o, d.vault, d.user, Wrap(password, key, binding, salt, nonce).value)
  {
    UnwrapInvertsWrapExactly(password, key, binding, salt, nonce, password, BindingOf(d));
  }

  lemma SessionKeepsInv(o: Fleet, i: DeviceId, password: Password)
    requires FleetInv(o) && i in o.devices
    ensures FleetInv(ApplyOpenSession(o, i, password))
  {
    hide Inv, GoodRow, GoodTransfer, Unwrap, WriterSound;
    var d := o.devices[i];
    var next := ApplyOpenSession(o, i, password);
    if next != o {
      assert GoodWrapper(o, d.vault, d.user, o.world.db.wrappers[(d.vault, d.user)].envelope);
      assert DeviceSound(o, d);
      OpenedKeyIsTheVaults(o, d, o.world.db.wrappers[(d.vault, d.user)].envelope, password);
      hide FleetInv;
      RememberingKeepsInv(o, i, next.devices[i], o.nextId);
    }
  }

  lemma DeviceIsSound(o: Fleet, i: DeviceId)
    requires FleetInv(o) && i in o.devices
    ensures DeviceSound(o, o.devices[i])
    ensures o.devices[i].receiver.Some? ==> ReceiverSound(o, o.devices[i], o.devices[i].receiver.value)
  {
  }

  lemma FetchKeepsInv(o: Fleet, i: DeviceId)
    requires FleetInv(o) && i in o.devices && o.devices[i].activity.Receiving?
    ensures FleetInv(ApplyFetch(o, i))
  {
    RowsAreGood(o);
    DeviceIsSound(o, i);
    hide FleetInv, GoodRow, GoodWrapper, ReceiverSound, LiveVault, IsMember;
    RememberingKeepsInv(o, i, ApplyFetch(o, i).devices[i], o.nextId);
  }

  lemma TransferredKeyIsTheVaults(o: Fleet, d: Device, c: Receiver, row: KeyRequest)
    requires IsRecipient(d, c, row) && GoodRow(o, c.id, row) && row.envelope.Some?
    ensures d.vault in o.vaultKeys
    ensures DecryptTransferred(row.envelope.value, c.keyPair, ContextOf(c.id, row)).Ok? ==>
              DecryptTransferred(row.envelope.value, c.keyPair, ContextOf(c.id, row)).value == o.vaultKeys[d.vault]
  {
  }

  lemma UnlockKeepsInv(o: Fleet, i: DeviceId)
    requires FleetInv(o) && i in o.devices && o.devices[i].activity.Fetched?
    ensures FleetInv(ApplyUnlock(o, i))
  {
    DeviceIsSound(o, i);
    var d := o.devices[i];
    var c := d.activity.receiver;
    if c.prepared.Some? {
      OpenedKeyIsTheVaults(o, d, c.prepared.value, d.activity.password);
    } else if d.activity.row.envelope.Some? {
      TransferredKeyIsTheVaults(o, d, c, d.activity.row);
    }
    assert c.prepared.Some? ==> d.vault in o.vaultKeys;
    hide FleetInv, GoodRow, GoodWrapper, Unwrap, DecryptTransferred;
    RememberingKeepsInv(o, i, ApplyUnlock(o, i).devices[i], o.nextId);
  }

  lemma BoundWrapperIsAcceptable(d: Device, password: Password, key: Bytes, salt: Salt, nonce: Nonce)
    ensures Wrap(password, key, BindingOf(d), salt, nonce).Ok? ==>
              AcceptableEnvelope(Wrap(password, key, BindingOf(d), salt, nonce).value, d.vault, d.user, KEY_VERSION)
  {
  }

  lemma PrepareKeepsInv(o: Fleet, i: DeviceId)
    requires FleetInv(o) && i in o.devices && o.devices[i].activity.Unlocked?
    ensures FleetInv(ApplyPrepare(o, i))
  {
    DeviceIsSound(o, i);
    var d := o.devices[i];
    FreshWrapperIsGood(o, d, d.activity.password, d.activity.key, BindingOf(d), o.nextId, o.nextId + 1);
    BoundWrapperIsAcceptable(d, d.activity.password, d.activity.key, o.nextId, o.nextId + 1);
    hide FleetInv, GoodRow, GoodWrapper, Wrap, AcceptableEnvelope, ReceiverSound, NormalizePassword;
    var next := ApplyPrepare(o, i);
    var after := next.devices[i];
    assert ActivitySound(o, after) && next == WithDevice(o.(nextId := next.nextId), i, after);
    hide *;
    RememberingKeepsInv(o, i, after, next.nextId);
  }

  /** Clearing the receiver, or storing what was prepared for it. */
  lemma StoringKeepsInv(o: Fleet, i: DeviceId, d: Device)
    requires FleetInv(o) && i in o.devices && DeviceSound(o, d)
    requires d.receiver.Some? ==> OwnReceiver(o.devices[i], d.receiver.value.id)
    ensures FleetInv(WithDevice(o, i, d))
  {
    hide Inv, GoodWrapper, GoodRow, GoodTransfer, Opens, WriterSound, ActivitySound;
    var next := WithDevice(o, i, d);
    assert ReceiversDiffer(next);
    DeviceStaysSound(o, next, d);
    hide DeviceSound, CallSound;
    DeviceStepKeepsInv(o, next, i);
  }

  lemma PersistKeepsInv(o: Fleet, i: DeviceId)
    requires FleetInv(o) && i in o.devices && o.devices[i].activity.Prepared?
    ensures FleetInv(StepFleet(o, Persist(i)))
  {
    DeviceIsSound(o, i);
    var d := o.devices[i];
    var stored := d.(receiver := Some(d.activity.receiver), activity := Persisted(d.activity.receiver));
    assert ReceiverSound(o, stored, d.activity.receiver) by {
      hide GoodWrapper, FleetInv, AcceptableEnvelope;
    }
    assert DeviceSound(o, stored);
    assert StepFleet(o, Persist(i)) == WithDevice(o, i, stored);
    hide *;
    StoringKeepsInv(o, i, stored);
  }

  /** Placing a call leaves the tables alone and adds one thread. */
  lemma CallIsPlaced(w: World, t: ThreadId, call: Call)
    requires Inv(w) && t !in w.threads
    ensures var next := SharingService.Apply(w, Begin(t, call));
            && Inv(next) && next.db == w.db && t in next.threads && next.threads[t].call == call
            && (forall x | x in next.threads && x != t :: x in w.threads && next.threads[x] == w.threads[x])
  {
    StepKeepsInv(w, Begin(t, call));
  }

  /** What a device issues is its own prepared wrapper, and nothing it issued before changes. */
  predicate IssuesOwn(o: Fleet, next: Fleet, d: Device) {
    || next.issued == o.issued
    || (d.receiver.Some? && d.receiver.value.prepared.Some?
        && next.issued == o.issued[d.receiver.value.id := d.receiver.value.prepared.value])
  }

  lemma IssuingGrows(o: Fleet, next: Fleet, d: Device)
    requires DeviceSound(o, d) && IssuesOwn(o, next, d) && next.nextId == o.nextId && next.vaultKeys == o.vaultKeys
    ensures Grows(o, next)
    ensures forall id | id in next.issued :: id in o.issued || OwnReceiver(d, id)
    ensures d.receiver.Some? && d.receiver.value.id in next.issued ==>
              d.receiver.value.prepared == Some(next.issued[d.receiver.value.id])
  {
    hide GoodWrapper, ActivitySound, IsRecipient;
    if d.receiver.Some? {
      assert ReceiverSound(o, d, d.receiver.value);
    }
  }

  lemma PlacingDeviceStaysSound(o: Fleet, next: Fleet, d: Device, t: ThreadId, call: Call)
    requires DeviceSound(o, d) && IssuesOwn(o, next, d) && next.nextId == o.nextId && next.vaultKeys == o.vaultKeys
    requires next.world.db == o.world.db
    requires forall x | x in next.world.threads ::
               (x in o.world.threads && o.world.threads[x].call == next.world.threads[x].call) || next.world.threads[x].call == call
    requires d.receiver.Some? ==> CallFits(d, d.receiver.value, call)
    ensures DeviceSound(next, d)
  {
    IssuingGrows(o, next, d);
    GrowingKeepsGood(o, next);
    ActivityStaysSound(o, next, d);
    hide GoodWrapper, GoodRow, ActivitySound, IssuesOwn, IsRecipient, Grows;
    if d.receiver.Some? {
      assert ReceiverSound(o, d, d.receiver.value);
      assert ReceiverSound(next, d, d.receiver.value);
    }
  }

  /** A device places a call about its own receiver and goes on to wait for it. */
  lemma PlacingKeepsInv(o: Fleet, i: DeviceId, t: ThreadId, call: Call, next: Fleet)
    requires FleetInv(o) && i in o.devices && t !in o.world.threads && i in next.devices
    requires next == o.(world := SharingService.Apply(o.world, Begin(t, call)), devices := o.devices[i := next.devices[i]],
                        issued := next.issued)
    requires next.devices[i] == o.devices[i].(activity := next.devices[i].activity)
    requires next.devices[i].activity.Awaiting? || next.devices[i].activity.AwaitingStart? || next.devices[i] == o.devices[i]
    requires IssuesOwn(o, next, o.devices[i]) && CallSound(next, call)
    requires call.Start? ==> o.devices[i].receiver.Some? && OwnReceiver(o.devices[i], call.request)
                             && CallFits(o.devices[i], o.devices[i].receiver.value, call)
    ensures FleetInv(next)
  {
    hide FleetInv, Inv, SharingService.Apply, GoodWrapper, DeviceSound, CallSound, IssuesOwn, ReceiversDiffer, CallFits;
    InvOfFleet(o);
    DeviceIsSound(o, i);
    CallIsPlaced(o.world, t, call);
    PlacedDeviceIsSound(o, i, t, call, next);
    IssuingGrows(o, next, o.devices[i]);
    IdsAreBelow(o);
    ReceiversOfFleetDiffer(o);
    SameReceiversDiffer(o, next);
    OwnIdsAreBelow(o, i);
    DeviceStepKeepsInv(o, next, i);
  }

  lemma OwnIdsAreBelow(o: Fleet, i: DeviceId)
    requires FleetInv(o) && i in o.devices
    ensures forall id: RequestId | OwnReceiver(o.devices[i], id) :: id < o.nextId
  {
    IdsAreBelow(o);
    hide FleetInv;
  }

  lemma ReceiversOfFleetDiffer(o: Fleet)
    requires FleetInv(o)
    ensures ReceiversDiffer(o)
  {
  }

  lemma PlacedDeviceIsSound(o: Fleet, i: DeviceId, t: ThreadId, call: Call, next: Fleet)
    requires i in o.devices && i in next.devices && DeviceSound(o, o.devices[i])
    requires next.nextId == o.nextId && next.vaultKeys == o.vaultKeys && next.world.db == o.world.db
    requires t in next.world.threads && next.world.threads[t].call == call
    requires forall x | x in next.world.threads && x != t :: x in o.world.threads && next.world.threads[x] == o.world.threads[x]
    requires next.devices[i] == o.devices[i].(activity := next.devices[i].activity)
    requires next.devices[i].activity.Awaiting? || next.devices[i].activity.AwaitingStart? || next.devices[i] == o.devices[i]
    requires IssuesOwn(o, next, o.devices[i])
    requires call.Start? ==> o.devices[i].receiver.Some? && CallFits(o.devices[i], o.devices[i].receiver.value, call)
    ensures DeviceSound(next, next.devices[i])
  {
    var d := next.devices[i];
    SoundWhateverItDoes(o, o.devices[i], d);
    assert IssuesOwn(o, next, d);
    assert d.receiver.Some? ==> CallFits(d, d.receiver.value, call);
    hide DeviceSound, IssuesOwn, CallFits, GoodWrapper;
    PlacingDeviceStaysSound(o, next, d, t, call);
  }

  lemma SameReceiversDiffer(o: Fleet, next: Fleet)
    requires ReceiversDiffer(o) && next.devices.Keys == o.devices.Keys
    requires forall j | j in o.devices :: next.devices[j].receiver == o.devices[j].receiver
    ensures ReceiversDiffer(next)
  {
  }

  lemma SoundWhateverItDoes(o: Fleet, d: Device, waiting: Device)
    requires DeviceSound(o, d) && waiting == d.(activity := waiting.activity)
    requires waiting.activity.Awaiting? || waiting.activity.AwaitingStart? || waiting == d
    ensures DeviceSound(o, waiting)
  {
    hide GoodWrapper;
    if d.receiver.Some? {
      assert ReceiverSound(o, d, d.receiver.value);
      assert ReceiverSound(o, waiting, d.receiver.value);
    }
  }

  lemma SendStartKeepsInv(o: Fleet, i: DeviceId, t: ThreadId)
    requires FleetInv(o) && i in o.devices && o.devices[i].activity.Starting? && t !in o.world.threads
    ensures FleetInv(StepFleet(o, SendStart(i, t)))
  {
    DeviceIsSound(o, i);
    var d := o.devices[i];
    var c := d.activity.receiver;
    var call := Start(d.user, d.vault, c.id, c.keyPair);
    hide FleetInv, SharingService.Apply, GoodWrapper;
    var next := StepFleet(o, SendStart(i, t));
    assert next == WithActivity(o.(world := SharingService.Apply(o.world, Begin(t, call))), i, AwaitingStart(t));
    PlacingKeepsInv(o, i, t, call, next);
  }

  lemma SendKeepsInv(o: Fleet, i: DeviceId, t: ThreadId)
    requires FleetInv(o) && i in o.devices && o.devices[i].activity.Persisted?
    ensures FleetInv(ApplySend(o, i, t))
  {
    var d := o.devices[i];
    var c := d.activity.receiver;
    if t !in o.world.threads && c.prepared.Some? {
      hide *;
      SendPlaces(o, i, t);
      PlacingKeepsInv(o, i, t, Complete(d.user, d.vault, c.id, c.prepared.value), ApplySend(o, i, t));
    }
  }

  /** What is sent is the wrapper the device has stored. */
  lemma SendPlaces(o: Fleet, i: DeviceId, t: ThreadId)
    requires FleetInv(o) && i in o.devices && o.devices[i].activity.Persisted?
    requires t !in o.world.threads && o.devices[i].activity.receiver.prepared.Some?
    ensures var d := o.devices[i];
            var call := Complete(d.user, d.vault, d.activity.receiver.id, d.activity.receiver.prepared.value);
            var next := ApplySend(o, i, t);
            && i in next.devices && next.devices[i].activity.Awaiting?
            && next.devices[i] == d.(activity := next.devices[i].activity)
            && next == o.(world := SharingService.Apply(o.world, Begin(t, call)), devices := o.devices[i := next.devices[i]],
                          issued := next.issued)
            && CallSound(next, call) && IssuesOwn(o, next, d)
  {
    PersistedIsSound(o, i);
    hide FleetInv, SharingService.Apply, Opens, ReceiverSound, AcceptableEnvelope;
  }

  lemma PersistedIsSound(o: Fleet, i: DeviceId)
    requires FleetInv(o) && i in o.devices && o.devices[i].activity.Persisted?
    ensures var d := o.devices[i];
            && d.receiver == Some(d.activity.receiver) && d.activity.receiver.prepared.Some?
            && GoodWrapper(o, d.vault, d.user, d.activity.receiver.prepared.value)
  {
    DeviceIsSound(o, i);
    hide FleetInv, GoodWrapper, AcceptableEnvelope;
  }

  lemma BeginKeepsInv(o: Fleet, i: DeviceId)
    requires FleetInv(o) && i in o.devices
    ensures FleetInv(ApplyBegin(o, i))
  {
    DeviceIsSound(o, i);
    var d := o.devices[i];
    var next := ApplyBegin(o, i);
    if d.activity.Resting? && !(d.receiver.Some? && d.receiver.value.expiresAt > o.world.now) {
      FreshReceiverIsSound(o, i);
      hide Inv, GoodWrapper, GoodRow, GoodTransfer, WriterSound, DeviceSound, CallSound, ApplyBegin;
      DeviceStepKeepsInv(o, next, i);
    } else if d.activity.Resting? {
      hide FleetInv, ReceiverSound;
      RememberingKeepsInv(o, i, d.(activity := Starting(d.receiver.value)), o.nextId);
    }
  }

  lemma FreshReceiverIsSound(o: Fleet, i: DeviceId)
    requires FleetInv(o) && i in o.devices && o.devices[i].activity.Resting?
    requires !(o.devices[i].receiver.Some? && o.devices[i].receiver.value.expiresAt > o.world.now)
    ensures var next := ApplyBegin(o, i);
            && DeviceSound(next, next.devices[i]) && ReceiversDiffer(next) && Grows(o, next)
            && next == o.(devices := next.devices, nextId := next.nextId)
            && next.devices == o.devices[i := next.devices[i]]
            && (forall id | id in next.issued :: id < next.nextId)
  {
    hide Inv, GoodWrapper, GoodTransfer, WriterSound;
    DeviceIsSound(o, i);
    var next := ApplyBegin(o, i);
    var d := next.devices[i];
    var r := d.receiver.value;
    forall t | t in next.world.threads
      ensures CallFits(d, r, next.world.threads[t].call)
    {
      assert CallSound(o, o.world.threads[t].call);
    }
    assert r.id !in o.world.db.requests by {
      RowsAreGood(o);
    }
    assert ReceiverSound(next, d, r);
    IdsAreBelow(o);
  }

  lemma IdsAreBelow(o: Fleet)
    requires FleetInv(o)
    ensures forall j | j in o.devices && o.devices[j].receiver.Some? :: o.devices[j].receiver.value.id < o.nextId
    ensures forall id | id in o.issued :: id < o.nextId
  {
    hide Inv, CallSound, GoodWrapper, GoodRow, WriterSound, ActivitySound;
  }

  lemma ApprovalIsGood(o: Fleet, d: Device, id: RequestId, r: KeyRequest)
    requires d.session.Some? && d.vault in o.vaultKeys && d.session.value == o.vaultKeys[d.vault] && r.vault == d.vault
    ensures var transfer := EncryptForReceiver(d.session.value, r.publicKey, ContextOf(id, r));
            transfer.Ok? ==> GoodTransfer(o, id, r, transfer.value)
  {
  }

  lemma ApproveKeepsInv(o: Fleet, i: DeviceId, id: RequestId, code: VerificationCode, t: ThreadId)
    requires FleetInv(o) && i in o.devices
    ensures FleetInv(ApplyApprove(o, o.devices[i], id, code, t))
  {
    var d := o.devices[i];
    DeviceIsSound(o, i);
    InvOfFleet(o);
    hide FleetInv, Inv, SharingService.Apply, GoodTransfer, EncryptForReceiver, ReceiverSound, ActivitySound;
    var next := ApplyApprove(o, d, id, code, t);
    if next != o {
      var r := o.world.db.requests[id];
      ApprovalIsGood(o, d, id, r);
      var transfer := EncryptForReceiver(d.session.value, r.publicKey, ContextOf(id, r)).value;
      var call := Approve(d.user, d.vault, id, transfer);
      assert next == o.(world := SharingService.Apply(o.world, Begin(t, call)));
      hide *;
      ApprovalKeepsInv(o, next, i, t, call);
    }
  }

  lemma ApprovalKeepsInv(o: Fleet, next: Fleet, i: DeviceId, t: ThreadId, call: Call)
    requires FleetInv(o) && i in o.devices && t !in o.world.threads && call.Approve?
    requires next == o.(world := SharingService.Apply(o.world, Begin(t, call)))
    requires call.request in o.world.db.requests && o.world.db.requests[call.request].vault == call.vault
    requires GoodTransfer(o, call.request, o.world.db.requests[call.request], call.transfer)
    ensures FleetInv(next)
  {
    InvOfFleet(o);
    hide FleetInv, Inv, SharingService.Apply, GoodTransfer;
    CallIsPlaced(o.world, t, call);
    SameKeysSameTransfer(o, next, call.request, o.world.db.requests[call.request], call.transfer);
    assert CallSound(next, call);
    hide CallSound;
    SilentPlacingKeepsInv(o, i, t, call, next);
  }

  /** A call that is not about the device's receiver. */
  lemma SilentPlacingKeepsInv(o: Fleet, i: DeviceId, t: ThreadId, call: Call, next: Fleet)
    requires FleetInv(o) && i in o.devices && t !in o.world.threads && !call.Start? && CallSound(next, call)
    requires next == o.(world := SharingService.Apply(o.world, Begin(t, call)))
    ensures FleetInv(next)
  {
    assert next.devices == o.devices[i := next.devices[i]] && IssuesOwn(o, next, o.devices[i]);
    hide *;
    PlacingKeepsInv(o, i, t, call, next);
  }

  lemma SameKeysSameTransfer(o: Fleet, next: Fleet, id: RequestId, r: KeyRequest, e: TransferEnvelope)
    requires GoodTransfer(o, id, r, e) && next.vaultKeys == o.vaultKeys
    ensures GoodTransfer(next, id, r, e)
  {
  }

  lemma RestingKeepsInv(o: Fleet, i: DeviceId)
    requires FleetInv(o) && i in o.devices
    ensures FleetInv(WithActivity(o, i, Resting))
    ensures FleetInv(WithDevice(o, i, o.devices[i].(receiver := None, activity := Resting)))
  {
    DeviceIsSound(o, i);
    hide FleetInv, ReceiverSound;
    RememberingKeepsInv(o, i, o.devices[i].(activity := Resting), o.nextId);
    StoringKeepsInv(o, i, o.devices[i].(receiver := None, activity := Resting));
  }

  lemma ReceiveKeepsInv(o: Fleet, i: DeviceId, password: Password)
    requires FleetInv(o) && i in o.devices
    ensures FleetInv(ApplyReceive(o, i, password))
  {
    DeviceIsSound(o, i);
    hide FleetInv, ReceiverSound, NormalizePassword;
    if ApplyReceive(o, i, password) != o {
      RememberingKeepsInv(o, i, ApplyReceive(o, i, password).devices[i], o.nextId);
    }
  }

  // ----------------------------------------- new vaults and password changes

  lemma ReplacedTables(w: World, v: VaultId, u: UserId, e: PasswordEnvelope)
    ensures var next := Exec(w, ReplaceWrapper(v, u, e)).0;
            var written := MayChangePassword(w.db, u, v, e);
            && (Exec(w, ReplaceWrapper(v, u, e)).1 <==> written)
            && next.db.requests == (if written then CancelOpen(w.db.requests, v, u) else w.db.requests)
            && next.db.wrappers == (if written then w.db.wrappers[(v, u) := WrittenWrapper(w.db, v, u, e)] else w.db.wrappers)
  {
    hide CancelOpen, WrittenWrapper, MayChangePassword;
  }

  lemma CancelingServes(o: Fleet, v: VaultId, u: UserId)
    requires forall id | id in o.world.db.requests :: GoodRow(o, id, o.world.db.requests[id])
    ensures var after := CancelOpen(o.world.db.requests, v, u);
            && (forall id | id in o.world.db.requests :: id in after)
            && (forall id | id in after :: RowServed(o, id, after[id]))
  {
    hide GoodTransfer;
  }

  /** A device writes a good wrapper of its own, outside any request. */
  lemma WritingKeepsInv(o: Fleet, next: Fleet, v: VaultId, u: UserId, wrapper: Wrapper, writer: Writer)
    requires FleetInv(o) && Grows(o, next) && next.devices == o.devices && next.issued == o.issued && Inv(next.world)
    requires forall x | x in next.vaultKeys :: |next.vaultKeys[x]| == VAULT_KEY_BYTES
    requires next.world.threads == o.world.threads
    requires forall id | id in o.world.db.requests :: id in next.world.db.requests
    requires forall id | id in next.world.db.requests :: RowServed(o, id, next.world.db.requests[id])
    requires next.world.db.wrappers == o.world.db.wrappers[(v, u) := wrapper] && GoodWrapper(next, v, u, wrapper.envelope)
    requires next.writers == o.writers[(v, u) := writer] && !writer.ByRequest?
    ensures FleetInv(next)
  {
    WrappersAreGood(o);
    GrowingKeepsGood(o, next);
    hide FleetInv, Inv, GoodWrapper, GoodRow, RowServed, Grows;
    WritingMovesOne(o.world.db.wrappers, (v, u), wrapper);
    MovedWrappersAreGood(next, o.world.db.wrappers, next.world.db.wrappers, Some(((v, u), wrapper.envelope)));
    ReplacingKeepsWriters(o, next, (v, u), writer);
    TablesStepKeepsInv(o, next);
  }

  lemma ReplacedWorld(w: World, d: Device, e: PasswordEnvelope)
    requires Inv(w)
    ensures var (next, ok) := Exec(w, ReplaceWrapper(d.vault, d.user, e));
            ok ==>
              && Inv(next) && next.threads == w.threads && next.db.requests == CancelOpen(w.db.requests, d.vault, d.user)
              && next.db.wrappers == w.db.wrappers[(d.vault, d.user) := WrittenWrapper(w.db, d.vault, d.user, e)]
  {
    hide Inv, Exec, MayChangePassword, Justified;
    var s := ReplaceWrapper(d.vault, d.user, e);
    AdministrativeIsJustified(w, s);
    ExecKeepsInv(w, s);
    Untouched(w, s);
    ReplacedTables(w, d.vault, d.user, e);
  }

  lemma ChangedPassword(o: Fleet, d: Device, password: Password, e: PasswordEnvelope)
    requires d.session.Some? && Wrap(password, d.session.value, BindingOf(d), o.nextId, o.nextId + 1) == Ok(e)
    ensures var (world, ok) := Exec(o.world, ReplaceWrapper(d.vault, d.user, e));
            ApplyChangePassword(o, d, password) ==
              if ok then o.(world := world, nextId := o.nextId + 2, writers := o.writers[(d.vault, d.user) := ByPasswordChange])
              else o
  {
    hide Exec, Wrap;
  }

  lemma NewPasswordKeepsInv(o: Fleet, next: Fleet, d: Device, e: PasswordEnvelope)
    requires FleetInv(o) && GoodWrapper(o, d.vault, d.user, e) && Exec(o.world, ReplaceWrapper(d.vault, d.user, e)).1
    requires next == o.(world := Exec(o.world, ReplaceWrapper(d.vault, d.user, e)).0, nextId := o.nextId + 2,
                        writers := o.writers[(d.vault, d.user) := ByPasswordChange])
    ensures FleetInv(next)
  {
    InvOfFleet(o);
    RowsAreGood(o);
    KeyLengths(o);
    hide FleetInv, Inv, Exec, GoodRow, GoodWrapper, RowServed;
    ReplacedWorld(o.world, d, e);
    CancelingServes(o, d.vault, d.user);
    SameKeysSameWrappers(o, next);
    WritingKeepsInv(o, next, d.vault, d.user, WrittenWrapper(o.world.db, d.vault, d.user, e), ByPasswordChange);
  }

  lemma ChangePasswordKeepsInv(o: Fleet, i: DeviceId, password: Password)
    requires FleetInv(o) && i in o.devices
    ensures FleetInv(ApplyChangePassword(o, o.devices[i], password))
  {
    var d := o.devices[i];
    DeviceIsSound(o, i);
    if d.session.Some? {
      var wrapped := Wrap(password, d.session.value, BindingOf(d), o.nextId, o.nextId + 1);
      if wrapped.Ok? {
        FreshWrapperIsGood(o, d, password, d.session.value, BindingOf(d), o.nextId, o.nextId + 1);
        ChangedPassword(o, d, password, wrapped.value);
        hide FleetInv, Exec, Wrap, GoodWrapper, DeviceSound, ReceiverSound, ApplyChangePassword;
        if Exec(o.world, ReplaceWrapper(d.vault, d.user, wrapped.value)).1 {
          NewPasswordKeepsInv(o, ApplyChangePassword(o, d, password), d, wrapped.value);
        }
      }
    }
  }

  lemma WrappersAreGood(o: Fleet)
    requires FleetInv(o)
    ensures forall k | k in o.world.db.wrappers :: GoodWrapper(o, k.0, k.1, o.world.db.wrappers[k].envelope)
  {
  }

  lemma KeyLengths(o: Fleet)
    requires FleetInv(o)
    ensures forall v | v in o.vaultKeys :: |o.vaultKeys[v]| == VAULT_KEY_BYTES
  {
  }

  lemma SameKeysSameWrappers(o: Fleet, next: Fleet)
    requires next.vaultKeys == o.vaultKeys
    ensures forall v, u, e :: GoodWrapper(o, v, u, e) ==> GoodWrapper(next, v, u, e)
  {
  }

  lemma ReplacingKeepsWriters(o: Fleet, next: Fleet, k: (VaultId, UserId), writer: Writer)
    requires FleetInv(o) && next.issued == o.issued && !writer.ByRequest?
    requires next.writers == o.writers[k := writer]
    requires forall j | j in o.world.db.wrappers && j != k ::
               j in next.world.db.wrappers && next.world.db.wrappers[j] == o.world.db.wrappers[j]
    ensures forall v: VaultId, u: UserId :: WriterSound(next, (v, u))
  {
    forall v: VaultId, u: UserId
      ensures WriterSound(next, (v, u))
    {
      assert WriterSound(o, (v, u));
      hide FleetInv;
    }
  }

  lemma CreatedTables(w: World, v: VaultId, org: OrgId, u: UserId, e: PasswordEnvelope, maxVaults: nat)
    ensures var s := InsertVault(v, org, u, e, maxVaults);
            var (next, ok) := Exec(w, s);
            ok ==>
              && next.db.requests == w.db.requests
              && (v, u) !in w.db.wrappers
              && next.db.wrappers == w.db.wrappers[(v, u) := Wrapper(e.keyVersion, e, None)]
  {
    hide MembersOf, LiveVaultIdsOf;
  }

  lemma CreatedWorld(w: World, d: Device, org: OrgId, e: PasswordEnvelope, maxVaults: nat)
    requires Inv(w)
    ensures var (next, ok) := Exec(w, InsertVault(d.vault, org, d.user, e, maxVaults));
            ok ==>
              && Inv(next) && next.threads == w.threads && next.db.requests == w.db.requests
              && next.db.wrappers == w.db.wrappers[(d.vault, d.user) := Wrapper(e.keyVersion, e, None)]
  {
    hide Inv, Exec, Justified;
    var s := InsertVault(d.vault, org, d.user, e, maxVaults);
    AdministrativeIsJustified(w, s);
    ExecKeepsInv(w, s);
    Untouched(w, s);
    CreatedTables(w, d.vault, org, d.user, e, maxVaults);
  }

  lemma CreatedVault(o: Fleet, d: Device, org: OrgId, key: Bytes, password: Password, maxVaults: nat, e: PasswordEnvelope)
    requires Wrap(password, key, None, o.nextId, o.nextId + 1) == Ok(e)
    ensures var (world, ok) := Exec(o.world, InsertVault(d.vault, org, d.user, e, maxVaults));
            ApplyCreateVault(o, d, org, key, password, maxVaults) ==
              if ok && d.vault !in o.vaultKeys && d.vault !in o.world.db.vaults then
                o.(world := world, nextId := o.nextId + 2, vaultKeys := o.vaultKeys[d.vault := key],
                   writers := o.writers[(d.vault, d.user) := Initially])
              else o
  {
    hide Exec, Wrap;
  }

  lemma NewVaultKeepsInv(o: Fleet, next: Fleet, d: Device, org: OrgId, key: Bytes, maxVaults: nat, e: PasswordEnvelope)
    requires FleetInv(o) && |key| == VAULT_KEY_BYTES && d.vault !in o.vaultKeys
    requires Exec(o.world, InsertVault(d.vault, org, d.user, e, maxVaults)).1
    requires next == o.(world := Exec(o.world, InsertVault(d.vault, org, d.user, e, maxVaults)).0, nextId := o.nextId + 2,
                        vaultKeys := o.vaultKeys[d.vault := key], writers := o.writers[(d.vault, d.user) := Initially])
    requires GoodWrapper(next, d.vault, d.user, e)
    ensures FleetInv(next)
  {
    InvOfFleet(o);
    RowsAreGood(o);
    KeyLengths(o);
    hide FleetInv, Inv, Exec, GoodRow, GoodWrapper, RowServed;
    CreatedWorld(o.world, d, org, e, maxVaults);
    SameRowsServed(o);
    WritingKeepsInv(o, next, d.vault, d.user, Wrapper(e.keyVersion, e, None), Initially);
  }

  lemma CreateVaultKeepsInv(o: Fleet, i: DeviceId, org: OrgId, key: Bytes, password: Password, maxVaults: nat)
    requires FleetInv(o) && i in o.devices
    ensures FleetInv(ApplyCreateVault(o, o.devices[i], org, key, password, maxVaults))
  {
    var d := o.devices[i];
    DeviceIsSound(o, i);
    var wrapped := Wrap(password, key, None, o.nextId, o.nextId + 1);
    if wrapped.Ok? {
      CreatedVault(o, d, org, key, password, maxVaults, wrapped.value);
      WrappedKeysAreWhole(password, key, o.nextId, o.nextId + 1);
      var next := ApplyCreateVault(o, d, org, key, password, maxVaults);
      hide FleetInv, Exec, Wrap, GoodWrapper, ReceiverSound, ActivitySound, ApplyCreateVault;
      if next != o {
        FreshWrapperIsGood(next, d, password, key, None, o.nextId, o.nextId + 1);
        hide DeviceSound;
        NewVaultKeepsInv(o, next, d, org, key, maxVaults, wrapped.value);
      }
    }
  }

  lemma WrappedKeysAreWhole(password: Password, key: Bytes, salt: Salt, nonce: Nonce)
    ensures Wrap(password, key, None, salt, nonce).Ok? ==> |key| == VAULT_KEY_BYTES
  {
  }

  lemma SameRowsServed(o: Fleet)
    requires forall id | id in o.world.db.requests :: GoodRow(o, id, o.world.db.requests[id])
    ensures forall id | id in o.world.db.requests :: RowServed(o, id, o.world.db.requests[id])
  {
    hide GoodRow;
  }

  lemma AddDeviceKeepsInv(o: Fleet, i: DeviceId, u: UserId, v: VaultId)
    requires FleetInv(o)
    ensures FleetInv(StepFleet(o, AddDevice(i, u, v)))
  {
    var next := StepFleet(o, AddDevice(i, u, v));
    if next != o {
      var added := Device(u, v, None, None, Resting);
      assert next == WithDevice(o, i, added) && DeviceSound(next, added);
      assert ReceiversDiffer(next) by { NoReceiverAdded(o, i, added); }
      hide Inv, GoodWrapper, GoodRow, GoodTransfer, StepFleet, WriterSound, CallSound, DeviceSound, ReceiversDiffer;
      OtherDevicesStaySound(o, i, added);
      SameFactsSameRules(o, next);
    }
  }

  lemma NoReceiverAdded(o: Fleet, i: DeviceId, d: Device)
    requires ReceiversDiffer(o) && i !in o.devices && d.receiver.None?
    ensures ReceiversDiffer(WithDevice(o, i, d))
  {
  }

  lemma OtherDevicesStaySound(o: Fleet, i: DeviceId, d: Device)
    requires FleetInv(o) && DeviceSound(WithDevice(o, i, d), d)
    ensures var next := WithDevice(o, i, d);
            forall j | j in next.devices :: DeviceSound(next, next.devices[j])
  {
    var next := WithDevice(o, i, d);
    hide Inv, GoodWrapper, GoodRow, WriterSound, CallSound, DeviceSound, ReceiversDiffer;
    forall j | j in next.devices
      ensures DeviceSound(next, next.devices[j])
    {
      if j != i {
        assert DeviceSound(o, o.devices[j]);
        SameFactsSameDevice(o, next, o.devices[j]);
      }
    }
  }

  lemma SameFactsSameDevice(o: Fleet, next: Fleet, d: Device)
    requires next == o.(devices := next.devices) && DeviceSound(o, d)
    ensures DeviceSound(next, d)
  {
    hide GoodWrapper, GoodRow, ActivitySound;
    ActivityStaysSound(o, next, d);
    GrowingKeepsGood(o, next);
  }

  lemma SameFactsSameRules(o: Fleet, next: Fleet)
    requires next == o.(devices := next.devices)
    ensures forall v, u, e :: GoodWrapper(o, v, u, e) ==> GoodWrapper(next, v, u, e)
    ensures forall id, r :: GoodRow(o, id, r) ==> GoodRow(next, id, r)
    ensures forall call :: CallSound(o, call) ==> CallSound(next, call)
    ensures forall k :: WriterSound(o, k) ==> WriterSound(next, k)
  {
    GrowingKeepsGood(o, next);
    hide Opens, ValidContext;
  }

  lemma FleetStepKeepsInv(o: Fleet, step: FleetStep)
    requires FleetInv(o)
    ensures FleetInv(StepFleet(o, step))
  {
    hide FleetInv, SharingService.Apply, ApplyCreateVault, ApplyOpenSession, ApplyChangePassword, ApplyApprove, ApplyBegin;
    hide ApplyReceive, ApplyFetch, ApplyUnlock, ApplyPrepare, ApplySend, StatementOf, WriterAfter;
    if step.Serve? {
      ServeKeepsInv(o, step.step);
    } else if step.AddDevice? {
      AddDeviceKeepsInv(o, step.device, step.user, step.vault);
    } else if step.device in o.devices {
      var i := step.device;
      match step
      case CreateVaultOn(_, org, key, password, maxVaults) => CreateVaultKeepsInv(o, i, org, key, password, maxVaults);
      case OpenSession(_, password) => SessionKeepsInv(o, i, password);
      case ChangePassword(_, password) => ChangePasswordKeepsInv(o, i, password);
      case ApproveRequestOn(_, id, code, t) => ApproveKeepsInv(o, i, id, code, t);
      case BeginRequest(_) => BeginKeepsInv(o, i);
      case SendStart(_, t) =>
        if o.devices[i].activity.Starting? && t !in o.world.threads {
          SendStartKeepsInv(o, i, t);
        }
      case FinishStart(_) => RestingKeepsInv(o, i);
      case ForgetReceiver(_) => RestingKeepsInv(o, i);
      case Receive(_, password) => ReceiveKeepsInv(o, i, password);
      case Fetch(_) =>
        if o.devices[i].activity.Receiving? {
          FetchKeepsInv(o, i);
        }
      case Unlock(_) =>
        if o.devices[i].activity.Fetched? {
          UnlockKeepsInv(o, i);
        }
      case Prepare(_) =>
        if o.devices[i].activity.Unlocked? {
          PrepareKeepsInv(o, i);
        }
      case Persist(_) =>
        if o.devices[i].activity.Prepared? {
          PersistKeepsInv(o, i);
        }
      case SendComplete(_, t) =>
        if o.devices[i].activity.Persisted? {
          SendKeepsInv(o, i, t);
        }
      case FinishReceive(_) => RestingKeepsInv(o, i);
      case Crash(_) => RestingKeepsInv(o, i);
    }
  }

  lemma {:induction false} FleetRunKeepsInv(o: Fleet, steps: seq<FleetStep>)
    requires FleetInv(o)
    ensures FleetInv(RunFleet(o, steps))
    decreases |steps|
  {
    hide FleetInv, StepFleet;
    if steps != [] {
      FleetStepKeepsInv(o, steps[0]);
      FleetRunKeepsInv(StepFleet(o, steps[0]), steps[1..]);
    }
  }

  lemma InitialFleetInv(members: map<(OrgId, UserId), Role>, emails: map<UserId, Email>, now: int)
    ensures FleetInv(NewFleet(members, emails, now))
  {
    InitialInv(members, emails, now);
    hide Inv;
  }
}
