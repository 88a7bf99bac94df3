/** Receiving a key: the first attempt completes, and a retry after any interruption succeeds with
    the wrapper that was prepared. */
module KeyReceipt {
  import opened Wrappers
  import opened VaultCrypto
  import opened SharingTables
  import opened SharingService
  import opened SharingSafety
  import opened SharingEpochs
  import opened SharingCalls
  import opened SharingAlone
  import opened KeyDelivery
  import opened KeyDeliverySafety
  import opened DataKey

  /** The service runs one call, undisturbed, for so many steps. */
  function ServeTimes(o: Fleet, t: ThreadId, n: nat): Fleet
    decreases n
  {
    if n == 0 then o else ServeTimes(StepFleet(o, Serve(Advance(t, true, 0))), t, n - 1)
  }

  function AfterCall(o: Fleet, t: ThreadId): Fleet {
    ServeTimes(o, t, MOST_STEPS)
  }

  lemma {:induction false} ServingRuns(o: Fleet, t: ThreadId, n: nat)
    ensures var next := ServeTimes(o, t, n);
            && next.world == AdvanceTimes(o.world, t, true, 0, n) && next.devices == o.devices
            && next.vaultKeys == o.vaultKeys && next.nextId == o.nextId
    decreases n
  {
    hide SharingService.Apply, StatementOf, WriterAfter;
    if n > 0 {
      ServingRuns(StepFleet(o, Serve(Advance(t, true, 0))), t, n - 1);
    }
  }

  /** A call just begun is served to its end as its method would be. */
  lemma CallIsServed(o: Fleet, w: World, t: ThreadId, call: Call)
    requires t !in w.threads && !call.Invite? && o.world == SharingService.Apply(w, Begin(t, call))
    ensures var next := AfterCall(o, t);
            && next.devices == o.devices && next.vaultKeys == o.vaultKeys && next.nextId == o.nextId
            && t in next.world.threads && next.world.threads - {t} == w.threads && next.world.now == w.now
            && (next.world.db, next.world.threads[t].pc.Done?) == Outcome(w.db, call, true, 0, w.now, w.nextRevision)
            && (call.Start? && next.world.threads[t].pc.Done? ==>
                  call.request in next.world.db.requests
                  && next.world.threads[t].row == Some(next.world.db.requests[call.request]))
  {
    hide *;
    hide SharingService.Apply, Outcome, AdvanceTimes, ServeTimes;
    UndisturbedCall(w, t, call, true, 0);
    ServingRuns(o, t, MOST_STEPS);
    AfterCallIs(o, t);
  }

  lemma AfterCallIs(o: Fleet, t: ThreadId)
    ensures AfterCall(o, t) == ServeTimes(o, t, MOST_STEPS)
  {
    hide ServeTimes;
  }

  /** The device's part of receiving, up to and including sending the completion. */
  function Resent(o: Fleet, i: DeviceId, password: Password, t: ThreadId): Fleet {
    StepFleet(Readied(o, i, password), SendComplete(i, t))
  }

  function Readied(o: Fleet, i: DeviceId, password: Password): Fleet {
    StepFleet(StepFleet(StepFleet(StepFleet(StepFleet(o, Receive(i, password)), Fetch(i)), Unlock(i)), Prepare(i)), Persist(i))
  }

  /** A device about to receive: at rest, its receiver and its request unexpired, its account a
      member of the live vault. */
  predicate MayReceive(o: Fleet, i: DeviceId) {
    && i in o.devices && o.devices[i].activity.Resting? && o.devices[i].receiver.Some?
    && var d := o.devices[i];
       var r := d.receiver.value;
       && r.expiresAt > o.world.now
       && r.id in o.world.db.requests && o.world.db.requests[r.id].expiresAt > o.world.now
       && LiveVault(o.world.db, d.vault) && IsMember(o.world.db, d.vault, d.user)
  }

  /** The reply was lost: the request is completed, and the wrapper it wrote is still the stored one. */
  predicate RetryReady(o: Fleet, i: DeviceId) {
    && MayReceive(o, i)
    && var d := o.devices[i];
       var r := d.receiver.value;
       && o.world.db.requests[r.id].status.Completed?
       && (d.vault, d.user) in o.writers && o.writers[(d.vault, d.user)] == ByRequest(r.id)
       && (d.vault, d.user) in o.world.db.wrappers && o.world.db.wrappers[(d.vault, d.user)].revokedAt.None?
  }

  /** The request is approved and can still complete; a wrapper may or may not have been prepared. */
  predicate ReceiveReady(o: Fleet, i: DeviceId, password: Password) {
    && MayReceive(o, i)
    && var d := o.devices[i];
       var r := d.receiver.value;
       && MayComplete(o.world.db, r.id, o.world.db.requests[r.id], o.world.now)
       && o.world.db.vaults[d.vault].keyVersion == KEY_VERSION
       && if r.prepared.Some? then password == r.prepared.value.ciphertext.key.password else NormalizePassword(password).Ok?
  }

  lemma ReceiveStep(o: Fleet, i: DeviceId, password: Password)
    requires MayReceive(o, i) && NormalizePassword(password).Ok?
    ensures StepFleet(o, Receive(i, password)) == WithActivity(o, i, Receiving(password, o.devices[i].receiver.value))
  {
    hide LiveVault, IsMember, NormalizePassword;
  }

  lemma FetchStep(o: Fleet, i: DeviceId, d: Device)
    requires i in o.devices && o.devices[i] == d && d.activity.Receiving?
    requires LiveVault(o.world.db, d.vault) && IsMember(o.world.db, d.vault, d.user)
    requires d.activity.receiver.id in o.world.db.requests
    requires var row := o.world.db.requests[d.activity.receiver.id];
             && IsRecipient(d, d.activity.receiver, row) && row.expiresAt > o.world.now
             && (row.status.Completed? || row.status.Approved?)
    ensures StepFleet(o, Fetch(i)) == WithActivity(o, i, Fetched(d.activity.password, d.activity.receiver,
                                                             o.world.db.requests[d.activity.receiver.id]))
  {
    hide LiveVault, IsMember, IsRecipient;
  }

  lemma UnlockStep(o: Fleet, i: DeviceId, d: Device)
    requires i in o.devices && o.devices[i] == d && d.activity.Fetched? && d.activity.receiver.prepared.Some?
    requires Unwrap(d.activity.password, d.activity.receiver.prepared.value, BindingOf(d)).Ok?
    ensures StepFleet(o, Unlock(i)) ==
              WithActivity(o, i, Unlocked(d.activity.password, d.activity.receiver,
                                          Unwrap(d.activity.password, d.activity.receiver.prepared.value, BindingOf(d)).value))
  {
    hide Unwrap;
  }

  lemma PrepareStep(o: Fleet, i: DeviceId, d: Device)
    requires i in o.devices && o.devices[i] == d && d.activity.Unlocked? && d.activity.receiver.prepared.Some?
    ensures StepFleet(o, Prepare(i)) == WithActivity(o, i, Persisted(d.activity.receiver))
  {
  }

  lemma SendStep(o: Fleet, i: DeviceId, d: Device, t: ThreadId)
    requires i in o.devices && o.devices[i] == d && d.activity.Persisted? && d.activity.receiver.prepared.Some?
    requires t !in o.world.threads
    ensures var c := d.activity.receiver;
            var sent := StepFleet(o, SendComplete(i, t));
            && sent.world == o.world.(threads := o.world.threads[t := NewThread(Complete(d.user, d.vault, c.id, c.prepared.value))])
            && sent.devices == o.devices[i := d.(activity := Awaiting(t, c))]
  {
    hide NewThread;
  }

  /** Only what the device is doing has changed. */
  predicate Doing(x: Fleet, o: Fleet, i: DeviceId, activity: Activity) {
    i in o.devices && x.world == o.world && x.devices == o.devices[i := o.devices[i].(activity := activity)]
  }

  lemma DoingNext(x: Fleet, o: Fleet, i: DeviceId, before: Activity, after: Activity)
    requires Doing(x, o, i, before)
    ensures i in x.devices && x.devices[i] == o.devices[i].(activity := before)
    ensures Doing(WithActivity(x, i, after), o, i, after)
  {
    assert WithActivity(x, i, after).devices == o.devices[i := o.devices[i].(activity := after)];
  }

  lemma ReceivesAndFetches(o: Fleet, i: DeviceId, password: Password)
    requires MayReceive(o, i) && NormalizePassword(password).Ok?
    requires var row := o.world.db.requests[o.devices[i].receiver.value.id]; row.status.Completed? || row.status.Approved?
    requires IsRecipient(o.devices[i], o.devices[i].receiver.value, o.world.db.requests[o.devices[i].receiver.value.id])
    ensures var r := o.devices[i].receiver.value;
            Doing(StepFleet(StepFleet(o, Receive(i, password)), Fetch(i)), o, i, Fetched(password, r, o.world.db.requests[r.id]))
  {
    var d := o.devices[i];
    var r := d.receiver.value;
    ReceiveStep(o, i, password);
    var o1 := StepFleet(o, Receive(i, password));
    assert Doing(o1, o, i, Receiving(password, r));
    DoingNext(o1, o, i, Receiving(password, r), Fetched(password, r, o.world.db.requests[r.id]));
    FetchStep(o1, i, d.(activity := Receiving(password, r)));
    hide StepFleet, IsRecipient, NormalizePassword;
  }

  lemma UnlocksAndPrepares(x: Fleet, o: Fleet, i: DeviceId, password: Password, r: Receiver, row: KeyRequest)
    requires Doing(x, o, i, Fetched(password, r, row)) && r.prepared.Some?
    requires Unwrap(password, r.prepared.value, BindingOf(o.devices[i])).Ok?
    ensures Doing(StepFleet(StepFleet(StepFleet(x, Unlock(i)), Prepare(i)), Persist(i)), o, i, Persisted(r))
  {
    hide Unwrap, StepFleet;
    var d := o.devices[i];
    var unlocked := Unlocked(password, r, Unwrap(password, r.prepared.value, BindingOf(d)).value);
    DoingNext(x, o, i, Fetched(password, r, row), unlocked);
    UnlockStep(x, i, d.(activity := Fetched(password, r, row)));
    var x1 := StepFleet(x, Unlock(i));
    DoingNext(x1, o, i, unlocked, Persisted(r));
    PrepareStep(x1, i, d.(activity := unlocked));
    var x2 := StepFleet(x1, Prepare(i));
    DoingNext(x2, o, i, Persisted(r), Persisted(r));
    PersistAgain(x2, i);
  }

  lemma PersistAgain(x: Fleet, i: DeviceId)
    requires i in x.devices && x.devices[i].activity.Persisted?
    ensures StepFleet(x, Persist(i)) == x
  {
  }

  lemma Sends(x: Fleet, i: DeviceId, d: Device, r: Receiver, t: ThreadId)
    requires i in x.devices && x.devices[i] == d && d.activity == Persisted(r) && r.prepared.Some? && t !in x.world.threads
    ensures var sent := StepFleet(x, SendComplete(i, t));
            && sent.world == x.world.(threads := x.world.threads[t := NewThread(Complete(d.user, d.vault, r.id, r.prepared.value))])
            && i in sent.devices && sent.devices[i] == d.(activity := Awaiting(t, r))
  {
    hide StepFleet, NewThread;
    SendStep(x, i, d, t);
  }

  lemma ResentCall(o: Fleet, i: DeviceId, password: Password, t: ThreadId)
    requires FleetInv(o) && RetryReady(o, i) && t !in o.world.threads && o.devices[i].receiver.value.prepared.Some?
    requires password == o.devices[i].receiver.value.prepared.value.ciphertext.key.password
    ensures var d := o.devices[i];
            var r := d.receiver.value;
            var sent := Resent(o, i, password, t);
            && sent.world == o.world.(threads := o.world.threads[t := NewThread(Complete(d.user, d.vault, r.id, r.prepared.value))])
            && i in sent.devices && sent.devices[i] == d.(activity := Awaiting(t, r))
  {
    PreparedOpens(o, i);
    hide FleetInv, MayReceive, Unwrap, NormalizePassword, StepFleet, NewThread, Doing, IsRecipient;
    var r := o.devices[i].receiver.value;
    ReceivesAndFetches(o, i, password);
    var o2 := StepFleet(StepFleet(o, Receive(i, password)), Fetch(i));
    UnlocksAndPrepares(o2, o, i, password, r, o.world.db.requests[r.id]);
    var ready := Readied(o, i, password);
    DoingNext(ready, o, i, Persisted(r), Resting);
    assert ready.world == o.world by { DoingWorld(ready, o, i, Persisted(r)); }
    Sends(ready, i, o.devices[i].(activity := Persisted(r)), r, t);
  }

  lemma DoingWorld(x: Fleet, o: Fleet, i: DeviceId, activity: Activity)
    requires Doing(x, o, i, activity)
    ensures x.world == o.world
  {
  }

  /** The call is the recipient's own, for a request of a live vault the account belongs to. */
  predicate Readable(w: World, call: Call) {
    && call.Complete? && call.request in w.db.requests
    && LiveVault(w.db, call.vault) && IsMember(w.db, call.vault, call.user)
    && w.db.requests[call.request].user == call.user && w.db.requests[call.request].vault == call.vault
  }

  predicate Answerable(w: World, call: Call) {
    && Readable(w, call) && w.db.requests[call.request].status.Completed?
    && PasswordWrapper(w.db, call.vault, call.user) == Some(call.envelope)
  }

  predicate Completable(w: World, call: Call) {
    && Readable(w, call) && w.db.requests[call.request].status.Approved?
    && MayComplete(w.db, call.request, w.db.requests[call.request], w.now)
    && AcceptableEnvelope(call.envelope, call.vault, call.user, w.db.vaults[call.vault].keyVersion)
  }

  /** The device has what it asked for: it forgot its receiver, and the tables are as they were. */
  predicate Received(o: Fleet, i: DeviceId, finished: Fleet) {
    && finished.world.db == o.world.db
    && i in finished.devices && finished.devices[i].receiver.None? && finished.devices[i].activity.Resting?
  }

  /** After any interruption, receiving again with the same password succeeds: the server accepts the
      prepared wrapper, its tables stay as they were, and the device forgets the receiver. */
  lemma RetrySucceeds(o: Fleet, i: DeviceId, password: Password, t: ThreadId)
    requires FleetInv(o) && RetryReady(o, i) && t !in o.world.threads
    ensures o.devices[i].receiver.value.prepared.Some?
    ensures password == o.devices[i].receiver.value.prepared.value.ciphertext.key.password ==>
              Received(o, i, StepFleet(AfterCall(Resent(o, i, password, t), t), FinishReceive(i)))
  {
    CompletedMeansPrepared(o, i);
    if password == o.devices[i].receiver.value.prepared.value.ciphertext.key.password {
      RetryIsReceived(o, i, password, t);
    }
  }

  lemma PreparedOpens(o: Fleet, i: DeviceId)
    requires FleetInv(o) && i in o.devices && o.devices[i].receiver.Some? && o.devices[i].receiver.value.prepared.Some?
    ensures var e := o.devices[i].receiver.value.prepared.value;
            && Unwrap(e.ciphertext.key.password, e, BindingOf(o.devices[i])).Ok?
            && NormalizePassword(e.ciphertext.key.password).Ok?
    ensures o.devices[i].receiver.value.id in o.world.db.requests ==>
              IsRecipient(o.devices[i], o.devices[i].receiver.value, o.world.db.requests[o.devices[i].receiver.value.id])
  {
    DeviceIsSound(o, i);
    hide FleetInv;
  }

  lemma RetryIsReceived(o: Fleet, i: DeviceId, password: Password, t: ThreadId)
    requires FleetInv(o) && RetryReady(o, i) && t !in o.world.threads && o.devices[i].receiver.value.prepared.Some?
    requires password == o.devices[i].receiver.value.prepared.value.ciphertext.key.password
    ensures Received(o, i, StepFleet(AfterCall(Resent(o, i, password, t), t), FinishReceive(i)))
  {
    hide Unwrap, NormalizePassword, Resent, StepFleet, Answerable, FleetInv, LiveVault, IsMember, NewThread, AfterCall;
    hide Outcome;
    ResentCall(o, i, password, t);
    CallIsAnswerable(o, i);
    var d := o.devices[i];
    var r := d.receiver.value;
    var call := Complete(d.user, d.vault, r.id, r.prepared.value);
    var sent := Resent(o, i, password, t);
    hide RetryReady;
    Beginning(o.world, t, call);
    CallIsServed(sent, o.world, t, call);
    AnswerableIsAnswered(o.world, call);
    FinishedReceiving(AfterCall(sent, t), i, d, t, r);
  }

  lemma Beginning(w: World, t: ThreadId, call: Call)
    requires t !in w.threads
    ensures SharingService.Apply(w, Begin(t, call)) == w.(threads := w.threads[t := NewThread(call)])
  {
    hide NewThread;
  }

  lemma AnswerableIsAnswered(w: World, call: Call)
    requires Answerable(w, call)
    ensures Outcome(w.db, call, true, 0, w.now, w.nextRevision) == (w.db, true)
  {
    CompleteMeans(w.db, call.user, call.vault, call.request, call.envelope, true, w.now, w.nextRevision, w.now, w.nextRevision);
    hide CompleteOutcome, PasswordWrapper, LiveVault, IsMember;
  }

  lemma CallIsAnswerable(o: Fleet, i: DeviceId)
    requires FleetInv(o) && RetryReady(o, i) && o.devices[i].receiver.value.prepared.Some?
    ensures var d := o.devices[i];
            Answerable(o.world, Complete(d.user, d.vault, d.receiver.value.id, d.receiver.value.prepared.value))
  {
    CompletedMeansPrepared(o, i);
    PreparedOpens(o, i);
    hide FleetInv, Unwrap, NormalizePassword, LiveVault, IsMember;
  }

  lemma FinishedReceiving(o: Fleet, i: DeviceId, d: Device, t: ThreadId, r: Receiver)
    requires i in o.devices && o.devices[i] == d.(activity := Awaiting(t, r))
    requires t in o.world.threads && o.world.threads[t].pc.Done?
    ensures var finished := StepFleet(o, FinishReceive(i));
            && finished.world == o.world && i in finished.devices
            && finished.devices[i].receiver.None? && finished.devices[i].activity.Resting?
  {
  }

  // ------------------------------------------------ the attempt that completes

  /** An approved request's transfer opens on the device it is for. */
  lemma TransferUnlocks(o: Fleet, i: DeviceId)
    requires FleetInv(o) && MayReceive(o, i)
    requires o.world.db.requests[o.devices[i].receiver.value.id].status.Approved?
    ensures var r := o.devices[i].receiver.value;
            var row := o.world.db.requests[r.id];
            && IsRecipient(o.devices[i], r, row) && row.envelope.Some? && o.devices[i].vault in o.vaultKeys
            && |o.vaultKeys[o.devices[i].vault]| == VAULT_KEY_BYTES
            && DecryptTransferred(row.envelope.value, r.keyPair, ContextOf(r.id, row)) == Ok(o.vaultKeys[o.devices[i].vault])
  {
    DeviceIsSound(o, i);
    RowsAreGood(o);
    KeyLengths(o);
    InvOfFleet(o);
    ApprovedHasTransfer(o.world, o.devices[i].receiver.value.id);
    assert ReceiverSound(o, o.devices[i], o.devices[i].receiver.value);
    TransferGivesTheKey(o, o.devices[i].receiver.value.id);
    hide FleetInv, Inv, DecryptTransferred, LiveVault, IsMember, GoodWrapper, GoodRow;
  }

  lemma ApprovedHasTransfer(w: World, id: RequestId)
    requires Inv(w) && id in w.db.requests && w.db.requests[id].status.Approved?
    ensures w.db.requests[id].envelope.Some?
  {
    assert ApprovedByAnother(w.db.requests[id]);
  }

  lemma UnlocksTransfer(x: Fleet, o: Fleet, i: DeviceId, password: Password, r: Receiver, row: KeyRequest, key: Bytes)
    requires Doing(x, o, i, Fetched(password, r, row)) && r.prepared.None? && row.envelope.Some? && row.status.Approved?
    requires DecryptTransferred(row.envelope.value, r.keyPair, ContextOf(r.id, row)) == Ok(key)
    ensures Doing(StepFleet(x, Unlock(i)), o, i, Unlocked(password, r, key))
  {
    hide DecryptTransferred;
    DoingNext(x, o, i, Fetched(password, r, row), Unlocked(password, r, key));
    assert StepFleet(x, Unlock(i)) == WithActivity(x, i, Unlocked(password, r, key));
    hide StepFleet;
  }

  lemma PreparesAndPersists(x: Fleet, o: Fleet, i: DeviceId, password: Password, r: Receiver, key: Bytes)
    requires Doing(x, o, i, Unlocked(password, r, key)) && r.prepared.None? && o.devices[i].receiver == Some(r)
    requires |key| == VAULT_KEY_BYTES && NormalizePassword(password).Ok?
    ensures var ready := StepFleet(StepFleet(x, Prepare(i)), Persist(i));
            Armed(ready, o, i, password)
  {
    var d := o.devices[i];
    DoingNext(x, o, i, Unlocked(password, r, key), Resting);
    BoundWrapperIsAcceptable(d, password, key, x.nextId, x.nextId + 1);
    var wrapped := Wrap(password, key, BindingOf(d), x.nextId, x.nextId + 1);
    assert wrapped.Ok?;
    hide Wrap, NormalizePassword, AcceptableEnvelope, Doing;
    var prepared := r.(prepared := Some(wrapped.value));
    var x1 := StepFleet(x, Prepare(i));
    assert x1.world == x.world && x1.devices == x.devices[i := d.(activity := Prepared(prepared))];
    var x2 := StepFleet(x1, Persist(i));
    assert x2.world == x.world && x2.devices[i] == d.(receiver := Some(prepared), activity := Persisted(prepared));
    DoingWorld(x, o, i, Unlocked(password, r, key));
  }

  /** The device holds an acceptable wrapper for its request, sealed with the password and stored
      before anything is sent. */
  predicate Armed(x: Fleet, o: Fleet, i: DeviceId, password: Password) {
    && i in o.devices && o.devices[i].receiver.Some? && x.world == o.world && i in x.devices && x.devices[i].receiver.Some?
    && var r := x.devices[i].receiver.value;
       && r.id == o.devices[i].receiver.value.id && r.prepared.Some?
       && (o.devices[i].receiver.value.prepared.Some? ==> r == o.devices[i].receiver.value)
       && AcceptableEnvelope(r.prepared.value, o.devices[i].vault, o.devices[i].user, KEY_VERSION)
       && r.prepared.value.ciphertext.key.password == password
       && x.devices[i] == o.devices[i].(receiver := Some(r), activity := Persisted(r))
  }

  lemma PreparedArms(x: Fleet, o: Fleet, i: DeviceId, r: Receiver, password: Password)
    requires r.prepared.Some? ==> r.prepared.value.ciphertext.key.password == password
    requires Doing(x, o, i, Persisted(r)) && o.devices[i].receiver == Some(r) && r.prepared.Some?
    requires AcceptableEnvelope(r.prepared.value, o.devices[i].vault, o.devices[i].user, KEY_VERSION)
    ensures Armed(x, o, i, password)
  {
    hide AcceptableEnvelope;
  }

  lemma ReceiveArms(o: Fleet, i: DeviceId, password: Password)
    requires FleetInv(o) && ReceiveReady(o, i, password)
    ensures Armed(Readied(o, i, password), o, i, password)
  {
    TransferUnlocks(o, i);
    DeviceIsSound(o, i);
    var r := o.devices[i].receiver.value;
    var row := o.world.db.requests[r.id];
    if r.prepared.Some? {
      PreparedOpens(o, i);
      assert AcceptableEnvelope(r.prepared.value, o.devices[i].vault, o.devices[i].user, KEY_VERSION);
    }
    hide FleetInv, Unwrap, NormalizePassword, StepFleet, Doing, IsRecipient, DecryptTransferred, AcceptableEnvelope, MayReceive;
    hide DeviceSound, ReceiverSound, Armed;
    ReceivesAndFetches(o, i, password);
    var o2 := StepFleet(StepFleet(o, Receive(i, password)), Fetch(i));
    if r.prepared.Some? {
      UnlocksAndPrepares(o2, o, i, password, r, row);
      PreparedArms(Readied(o, i, password), o, i, r, password);
    } else {
      UnlocksTransfer(o2, o, i, password, r, row, o.vaultKeys[o.devices[i].vault]);
      PreparesAndPersists(StepFleet(o2, Unlock(i)), o, i, password, r, o.vaultKeys[o.devices[i].vault]);
    }
  }

  /** The state in which a call's request has just been completed with the call's own wrapper. */
  predicate Complied(db: Db, call: Call) {
    && call.Complete?
    && PasswordWrapper(db, call.vault, call.user) == Some(call.envelope)
    && call.request in db.requests && db.requests[call.request].status.Completed?
    && (call.vault, call.user) in db.grants && db.grants[(call.vault, call.user)].status.Active?
  }

  lemma CompletableComplies(w: World, call: Call)
    requires Completable(w, call)
    ensures var (after, ok) := Outcome(w.db, call, true, 0, w.now, w.nextRevision);
            ok && Complied(after, call)
  {
    CompleteMeans(w.db, call.user, call.vault, call.request, call.envelope, true, w.now, w.nextRevision, w.now, w.nextRevision);
    hide CompleteOutcome, PasswordWrapper, LiveVault, IsMember, AcceptableEnvelope, MayComplete;
  }

  /** From an approved request, with a wrapper already prepared or not, receiving undisturbed stores
      the prepared wrapper at the server, activates the grant, completes the request and clears the
      receiver. A wrapper stored by an interrupted attempt is the one that is used. */
  lemma ReceiveSucceeds(o: Fleet, i: DeviceId, password: Password, t: ThreadId)
    requires FleetInv(o) && ReceiveReady(o, i, password) && t !in o.world.threads
    ensures Armed(Readied(o, i, password), o, i, password)
    ensures var d := o.devices[i];
            var stored := Readied(o, i, password).devices[i].receiver.value;
            var finished := StepFleet(AfterCall(Resent(o, i, password, t), t), FinishReceive(i));
            && Complied(finished.world.db, Complete(d.user, d.vault, stored.id, stored.prepared.value))
            && i in finished.devices && finished.devices[i].receiver.None? && finished.devices[i].activity.Resting?
  {
    ReceiveArms(o, i, password);
    var d := o.devices[i];
    var ready := Readied(o, i, password);
    var stored := ready.devices[i].receiver.value;
    var call := Complete(d.user, d.vault, stored.id, stored.prepared.value);
    ReadyCallIsCompletable(o, i, password, stored);
    hide FleetInv, ReceiveReady, Readied, NewThread, StepFleet, AcceptableEnvelope, AfterCall, Outcome;
    Sends(ready, i, ready.devices[i], stored, t);
    var sent := Resent(o, i, password, t);
    hide Resent, Completable, Complied;
    Beginning(o.world, t, call);
    CallIsServed(sent, o.world, t, call);
    CompletableComplies(o.world, call);
    FinishedReceiving(AfterCall(sent, t), i, ready.devices[i], t, stored);
  }

  lemma ReadyCallIsCompletable(o: Fleet, i: DeviceId, password: Password, stored: Receiver)
    requires FleetInv(o) && ReceiveReady(o, i, password)
    requires stored.id == o.devices[i].receiver.value.id && stored.prepared.Some?
    requires AcceptableEnvelope(stored.prepared.value, o.devices[i].vault, o.devices[i].user, KEY_VERSION)
    ensures Completable(o.world, Complete(o.devices[i].user, o.devices[i].vault, stored.id, stored.prepared.value))
  {
    DeviceIsSound(o, i);
    hide FleetInv, AcceptableEnvelope, GoodWrapper, LiveVault;
  }
}
