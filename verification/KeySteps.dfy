/** What a device's steps amount to when nothing comes between them: exactly when each sends anything,
    what it sends, and what it stores. */
module KeySteps {
  import opened Wrappers
  import opened VaultCrypto
  import opened SharingTables
  import opened SharingService
  import opened SharingEffects
  import opened KeyDelivery

  // --------------------------------------------------------------- receiving

  function Receiving(i: DeviceId, password: Password, t: ThreadId): seq<FleetStep> {
    [FleetStep.Receive(i, password), Fetch(i), Unlock(i), Prepare(i), Persist(i), SendComplete(i, t)]
  }

  /** The password is one, and the stored receiver and its request are unexpired, belong together and to
      this device, and the request has been approved. */
  predicate MayFetch(o: Fleet, d: Device, password: Password) {
    && NormalizePassword(password).Ok? && d.receiver.Some? && o.world.now < d.receiver.value.expiresAt
    && d.receiver.value.id in o.world.db.requests
    && var row := o.world.db.requests[d.receiver.value.id];
       && row.user == d.user && row.vault == d.vault && row.publicKey == d.receiver.value.keyPair
       && o.world.now < row.expiresAt && (row.status == RequestStatus.Approved || row.status == Completed)
  }

  /** The key can be had: from the wrapper prepared before, or else from the transfer. */
  predicate MayUnlock(o: Fleet, d: Device, password: Password)
    requires MayFetch(o, d, password)
  {
    var r := d.receiver.value;
    var row := o.world.db.requests[r.id];
    if r.prepared.Some? then Unwrap(password, r.prepared.value, Some(Binding(d.vault, d.user))).Ok?
    else
      && row.status == RequestStatus.Approved && row.envelope.Some?
      && DecryptTransferred(row.envelope.value, r.keyPair, TransferContext(r.id, d.vault, d.user, row.accessVersion)).Ok?
  }

  lemma FetchesExactly(o: Fleet, i: DeviceId, password: Password)
    requires i in o.devices && o.devices[i].activity.Resting?
    ensures var d := o.devices[i];
            var after := StepFleet(StepFleet(o, FleetStep.Receive(i, password)), Fetch(i));
            after == WithActivity(o, i, if MayFetch(o, d, password)
                                        then Fetched(password, d.receiver.value, o.world.db.requests[d.receiver.value.id])
                                        else Resting)
  {
    hide NormalizePassword, LiveVault;
    var d := o.devices[i];
    assert o.devices[i := d] == o.devices;
    assert d.(activity := Resting) == d;
    var received := StepFleet(o, FleetStep.Receive(i, password));
    assert received == o || received == WithActivity(o, i, Activity.Receiving(password, d.receiver.value));
  }

  /** The key that was fetched, if any. */
  lemma UnlocksExactly(o: Fleet, i: DeviceId, password: Password)
    requires i in o.devices && MayFetch(o, o.devices[i], password)
    requires var d := o.devices[i];
             d.activity == Fetched(password, d.receiver.value, o.world.db.requests[d.receiver.value.id])
    ensures var d := o.devices[i];
            var r := d.receiver.value;
            var row := o.world.db.requests[r.id];
            var after := StepFleet(o, Unlock(i));
            && after.devices.Keys == o.devices.Keys && after == WithActivity(o, i, after.devices[i].activity)
            && (after.devices[i].activity.Unlocked? <==> MayUnlock(o, d, password))
            && (!MayUnlock(o, d, password) ==> after.devices[i].activity.Resting?)
            && (MayUnlock(o, d, password) ==>
                  && after.devices[i].activity.receiver == r && after.devices[i].activity.password == password
                  && (r.prepared.None? ==>
                        |after.devices[i].activity.key| == VAULT_KEY_BYTES
                        && forall key ::
                             (EncryptForReceiver(key, r.keyPair, TransferContext(r.id, d.vault, d.user, row.accessVersion))
                              == Ok(row.envelope.value))
                             ==> after.devices[i].activity.key == key))
  {
    hide NormalizePassword, Unwrap, ValidContext;
  }

  lemma PersistsExactly(o: Fleet, i: DeviceId)
    requires i in o.devices && o.devices[i].activity.Unlocked?
    requires var d := o.devices[i];
             && d.receiver == Some(d.activity.receiver) && d.user != NO_ID && d.vault != NO_ID
             && NormalizePassword(d.activity.password).Ok?
             && (d.activity.receiver.prepared.None? ==> |d.activity.key| == VAULT_KEY_BYTES)
    ensures var d := o.devices[i];
            var after := StepFleet(StepFleet(o, Prepare(i)), Persist(i));
            && i in after.devices && after.devices[i].activity.Persisted? && after.devices[i].receiver.Some?
            && var r := after.devices[i].receiver.value;
               && after == WithDevice(o.(nextId := after.nextId), i, d.(receiver := Some(r), activity := Persisted(r)))
               && r.prepared.Some? && r == d.activity.receiver.(prepared := r.prepared)
               && (d.activity.receiver.prepared.Some? ==> r == d.activity.receiver)
               && (d.activity.receiver.prepared.None? ==>
                     forall attempt, binding ::
                       Unwrap(attempt, r.prepared.value, binding) == Ok(d.activity.key) <==>
                       attempt == d.activity.password && binding == Some(Binding(d.vault, d.user)))
  {
    var d := o.devices[i];
    SealedOpens(d.activity.password, d.activity.key, Some(Binding(d.vault, d.user)), o.nextId, o.nextId + 1);
    hide Unwrap, Wrap, NormalizePassword;
  }

  lemma SendsExactly(o: Fleet, i: DeviceId, t: ThreadId)
    requires i in o.devices && o.devices[i].activity.Persisted? && o.devices[i].activity.receiver.prepared.Some?
    requires t !in o.world.threads
    ensures var d := o.devices[i];
            var r := d.activity.receiver;
            var after := StepFleet(o, SendComplete(i, t));
            && t in after.world.threads
            && after.world == o.world.(threads := o.world.threads[t := after.world.threads[t]])
            && after.world.threads[t].call == Complete(d.user, d.vault, r.id, r.prepared.value)
            && after.issued == o.issued[r.id := r.prepared.value]
            && after.devices == o.devices[i := d.(activity := Awaiting(t, r))]
  {
  }

  /** A device that receives sends exactly if the request and the password allow it. What it sends is the
      wrapper it has stored: the one prepared before, or one that opens, with this password for this
      vault and user only, to the very key sealed for its receiver. Otherwise nothing changes. */
  lemma ReceivesExactly(o: Fleet, i: DeviceId, password: Password, t: ThreadId)
    requires i in o.devices && o.devices[i].activity.Resting? && t !in o.world.threads
    requires o.devices[i].user != NO_ID && o.devices[i].vault != NO_ID
    ensures var d := o.devices[i];
            var after := RunFleet(o, Receiving(i, password, t));
            var sends := MayFetch(o, d, password) && MayUnlock(o, d, password);
            && (t in after.world.threads <==> sends)
            && (!sends ==> after == o)
            && (sends ==>
                  && i in after.devices && after.devices[i].receiver.Some? && after.devices[i].receiver.value.prepared.Some?
                  && var r, e := d.receiver.value, after.devices[i].receiver.value.prepared.value;
                     && after.world.threads[t].call == Complete(d.user, d.vault, r.id, e)
                     && after.devices[i].receiver == Some(r.(prepared := Some(e)))
                     && (r.prepared.Some? ==> r.prepared == Some(e))
                     && (r.prepared.None? ==>
                           forall key, attempt, binding ::
                             EncryptForReceiver(key, r.keyPair, TransferContext(r.id, d.vault, d.user,
                                                                                o.world.db.requests[r.id].accessVersion))
                             == Ok(o.world.db.requests[r.id].envelope.value) ==>
                               (Unwrap(attempt, e, binding) == Ok(key) <==>
                                attempt == password && binding == Some(Binding(d.vault, d.user)))))
  {
    var steps := Receiving(i, password, t);
    var d := o.devices[i];
    RunsInTurn(o, steps);
    FetchesExactly(o, i, password);
    var o2 := StepFleet(StepFleet(o, steps[0]), steps[1]);
    assert o2.devices[i].receiver == d.receiver && o2.world == o.world;
    if MayFetch(o, d, password) {
      assert MayFetch(o2, o2.devices[i], password);
      UnlocksExactly(o2, i, password);
      var o3 := StepFleet(o2, steps[2]);
      assert MayUnlock(o2, o2.devices[i], password) == MayUnlock(o, d, password);
      if MayUnlock(o, d, password) {
        PersistsExactly(o3, i);
        var o5 := StepFleet(StepFleet(o3, steps[3]), steps[4]);
        SendsExactly(o5, i, t);
        hide StepFleet, Unwrap, DecryptTransferred, NormalizePassword, EncryptForReceiver, MayUnlock, MayFetch;
      } else {
        UnlockingComesInOrder(o3, i, password);
        SendingComesInOrder(o3, i, t);
        hide StepFleet, Unwrap, DecryptTransferred, NormalizePassword, EncryptForReceiver, MayUnlock, MayFetch;
        assert o3 == o by { SameDevice(o, i, o3); }
      }
    } else {
      assert o2 == o by { SameDevice(o, i, o2); }
      UnlockingComesInOrder(o, i, password);
      SendingComesInOrder(o, i, t);
      hide StepFleet;
    }
  }

  lemma SameDevice(o: Fleet, i: DeviceId, next: Fleet)
    requires i in o.devices && i in next.devices && o.devices[i].activity.Resting? && next.devices[i].activity.Resting?
    requires exists a :: next == WithActivity(WithActivity(o, i, a), i, Resting) || next == WithActivity(o, i, Resting)
    ensures next == o
  {
    assert o.devices[i].(activity := Resting) == o.devices[i];
    assert o.devices[i := o.devices[i]] == o.devices;
  }

  lemma RunsInTurn(o: Fleet, steps: seq<FleetStep>)
    requires |steps| == 6
    ensures var o3 := StepFleet(StepFleet(StepFleet(o, steps[0]), steps[1]), steps[2]);
            RunFleet(o, steps) == StepFleet(StepFleet(StepFleet(o3, steps[3]), steps[4]), steps[5])
  {
    hide StepFleet;
    assert steps[1..][1..] == steps[2..] && steps[2..][1..] == steps[3..] && steps[3..][1..] == steps[4..];
    assert steps[4..][1..] == steps[5..] && steps[5..][1..] == [];
    var o1 := StepFleet(o, steps[0]);
    var o2 := StepFleet(o1, steps[1]);
    assert RunFleet(o, steps) == RunFleet(o2, steps[2..]);
    var o3 := StepFleet(o2, steps[2]);
    var o4 := StepFleet(o3, steps[3]);
    assert RunFleet(o2, steps[2..]) == RunFleet(o4, steps[4..]);
    var o5 := StepFleet(o4, steps[4]);
    assert RunFleet(o4, steps[4..]) == RunFleet(o5, steps[5..]);
    assert RunFleet(StepFleet(o5, steps[5]), []) == StepFleet(o5, steps[5]);
    assert RunFleet(o5, steps[5..]) == RunFleet(StepFleet(o5, steps[5..][0]), steps[5..][1..]);
  }

  /** A receive ends with the call it waits for: success forgets the receiver, failure keeps it. */
  lemma FinishesExactly(o: Fleet, i: DeviceId)
    requires i in o.devices && o.devices[i].activity.Awaiting? && o.devices[i].activity.thread in o.world.threads
    ensures var d := o.devices[i];
            var th := o.world.threads[d.activity.thread];
            StepFleet(o, FinishReceive(i))
            == if th.pc == Done then WithDevice(o, i, d.(receiver := None, activity := Resting))
               else if th.pc == Failed then WithDevice(o, i, d.(activity := Resting))
               else o
  {
  }

  // ------------------------------------------------------- asking and approving

  /** A resting device that asks keeps an unexpired receiver, or stores a fresh one for 48 hours, before it
      sends the request for exactly that one. */
  lemma AsksExactly(o: Fleet, i: DeviceId, t: ThreadId)
    requires i in o.devices && o.devices[i].activity.Resting? && t !in o.world.threads
    ensures var d := o.devices[i];
            var kept := d.receiver.Some? && o.world.now < d.receiver.value.expiresAt;
            var r := if kept then d.receiver.value else Receiver(o.nextId, o.nextId + 1, o.world.now + 172_800_000, None);
            var begun := StepFleet(o, BeginRequest(i));
            var after := StepFleet(begun, SendStart(i, t));
            && begun.world == o.world && i in begun.devices && begun.devices[i].receiver == Some(r)
            && t in after.world.threads && after.world.threads[t].call == Start(d.user, d.vault, r.id, r.keyPair)
            && after.world == o.world.(threads := o.world.threads[t := after.world.threads[t]])
            && after.devices == o.devices[i := d.(receiver := Some(r), activity := AwaitingStart(t))]
            && after.nextId == (if kept then o.nextId else o.nextId + 2)
  {
    BeginsExactly(o, i);
    StartsExactly(StepFleet(o, BeginRequest(i)), i, t);
    hide StepFleet;
  }

  lemma BeginsExactly(o: Fleet, i: DeviceId)
    requires i in o.devices && o.devices[i].activity.Resting?
    ensures var d := o.devices[i];
            var kept := d.receiver.Some? && o.world.now < d.receiver.value.expiresAt;
            var r := if kept then d.receiver.value else Receiver(o.nextId, o.nextId + 1, o.world.now + 172_800_000, None);
            StepFleet(o, BeginRequest(i))
            == WithDevice(o.(nextId := if kept then o.nextId else o.nextId + 2), i,
                          d.(receiver := Some(r), activity := Starting(r)))
  {
  }

  lemma StartsExactly(o: Fleet, i: DeviceId, t: ThreadId)
    requires i in o.devices && o.devices[i].activity.Starting? && t !in o.world.threads
    ensures var d := o.devices[i];
            var r := d.activity.receiver;
            var after := StepFleet(o, SendStart(i, t));
            && t in after.world.threads && after.world.threads[t].call == Start(d.user, d.vault, r.id, r.keyPair)
            && after.world == o.world.(threads := o.world.threads[t := after.world.threads[t]])
            && after.nextId == o.nextId && after.devices == o.devices[i := d.(activity := AwaitingStart(t))]
  {
  }

  /** An answered request is forgotten exactly if it is the device's own and canceled or expired. */
  lemma ForgetsExactly(o: Fleet, i: DeviceId)
    requires i in o.devices && o.devices[i].activity.AwaitingStart? && o.devices[i].activity.thread in o.world.threads
    ensures var d := o.devices[i];
            var th := o.world.threads[d.activity.thread];
            var over := && d.receiver.Some? && th.row.Some?
                        && th.row.value.user == d.user && th.row.value.vault == d.vault
                        && th.row.value.publicKey == d.receiver.value.keyPair
                        && (th.row.value.status == Canceled || th.row.value.expiresAt <= o.world.now);
            StepFleet(o, FinishStart(i))
            == if th.pc == Done && over then WithDevice(o, i, d.(receiver := None, activity := Resting))
               else if th.pc == Done || th.pc == Failed then WithDevice(o, i, d.(activity := Resting))
               else o
  {
  }

  /** An approver sends exactly if it has a session, the request is another user's for its vault and the
      code is the one of the request's key and context; what it sends opens only for these, to the
      session's key. */
  lemma ApprovesOnDeviceExactly(o: Fleet, i: DeviceId, id: RequestId, code: VerificationCode, t: ThreadId)
    requires i in o.devices && t !in o.world.threads
    ensures var d := o.devices[i];
            var after := StepFleet(o, ApproveRequestOn(i, id, code, t));
            && (t in after.world.threads <==>
                  && d.session.Some? && |d.session.value| == 32 && id in o.world.db.requests && id != NO_ID
                  && var r := o.world.db.requests[id];
                     && r.vault == d.vault && r.user != d.user && r.vault != NO_ID && r.user != NO_ID && r.accessVersion >= 1
                     && code == VerificationCode(r.publicKey, TransferContext(id, r.vault, r.user, r.accessVersion)))
            && (t !in after.world.threads ==> after == o)
            && (t in after.world.threads ==>
                  && after == o.(world := o.world.(threads := o.world.threads[t := after.world.threads[t]]))
                  && after.world.threads[t].call.Approve?
                  && var call, r := after.world.threads[t].call, o.world.db.requests[id];
                     && call == Approve(d.user, d.vault, id, call.transfer)
                     && forall pair, context :: DecryptTransferred(call.transfer, pair, context) == Ok(d.session.value) <==>
                                                  pair == r.publicKey
                                                  && context == TransferContext(id, r.vault, r.user, r.accessVersion))
  {
  }

  // ------------------------------------------------------ sessions and passwords

  /** A session is opened exactly if the account's stored, unrevoked wrapper opens with the password for
      this vault and user; nothing else changes. */
  lemma OpensSessionExactly(o: Fleet, i: DeviceId, password: Password)
    requires i in o.devices
    ensures var d := o.devices[i];
            var k := (d.vault, d.user);
            var opens := && k in o.world.db.wrappers && o.world.db.wrappers[k].revokedAt == None
                         && Unwrap(password, o.world.db.wrappers[k].envelope, Some(Binding(d.vault, d.user))).Ok?;
            StepFleet(o, OpenSession(i, password))
            == if opens
               then WithDevice(o, i, d.(session := Some(Unwrap(password, o.world.db.wrappers[k].envelope,
                                                              Some(Binding(d.vault, d.user))).value)))
               else o
  {
    hide Unwrap;
  }

  /** A new password is written exactly with a session, a password and the service's consent; the wrapper
      then opens, with that password for this vault and user only, to the session's key. */
  lemma ChangesPasswordExactly(o: Fleet, i: DeviceId, password: Password)
    requires i in o.devices && o.devices[i].user != NO_ID && o.devices[i].vault != NO_ID
    ensures var d := o.devices[i];
            var k := (d.vault, d.user);
            var after := StepFleet(o, KeyDelivery.ChangePassword(i, password));
            var may := && d.session.Some? && |d.session.value| == 32 && NormalizePassword(password).Ok?
                       && d.vault in o.world.db.vaults && o.world.db.vaults[d.vault].deletedAt == None
                       && o.world.db.vaults[d.vault].keyVersion == 1 && (o.world.db.vaults[d.vault].org, d.user) in o.world.db.members
                       && k in o.world.db.grants && o.world.db.grants[k].status == Active;
            && (!may ==> after == o)
            && (may ==>
                  && k in after.world.db.wrappers && after.world.db.wrappers[k].revokedAt == None
                  && after.devices == o.devices && after.issued == o.issued && after.vaultKeys == o.vaultKeys
                  && after.writers == o.writers[k := ByPasswordChange] && after.nextId == o.nextId + 2
                  && forall attempt, binding ::
                       Unwrap(attempt, after.world.db.wrappers[k].envelope, binding) == Ok(d.session.value) <==>
                       attempt == password && binding == Some(Binding(d.vault, d.user)))
  {
    var d := o.devices[i];
    if d.session.Some? {
      var bound := Some(Binding(d.vault, d.user));
      var wrapped := Wrap(password, d.session.value, bound, o.nextId, o.nextId + 1);
      SealedOpens(password, d.session.value, bound, o.nextId, o.nextId + 1);
      WrappedFormat(password, d.session.value, bound, o.nextId, o.nextId + 1);
      if wrapped.Ok? {
        PasswordChangesExactly(o.world.db, d.user, d.vault, wrapped.value);
      }
    }
    hide Unwrap, Wrap, NormalizePassword, UpsertPasswordWrapper;
  }

  /** A device creates its vault exactly with a fresh vault identifier, a key of 32 bytes, a password and the
      service's consent; the key is then the vault's, and the wrapper opens to it with that password. */
  lemma CreatesVaultOnDeviceExactly(o: Fleet, i: DeviceId, org: OrgId, key: Bytes, password: Password, maxVaults: nat)
    requires i in o.devices
    ensures var d := o.devices[i];
            var k := (d.vault, d.user);
            var after := StepFleet(o, CreateVaultOn(i, org, key, password, maxVaults));
            var present := set p | p in o.world.db.vaults && o.world.db.vaults[p].org == org
                                   && o.world.db.vaults[p].deletedAt == None;
            var may := && |key| == 32 && NormalizePassword(password).Ok?
                       && d.vault !in o.vaultKeys && d.vault !in o.world.db.vaults
                       && k !in o.world.db.grants && k !in o.world.db.wrappers && (maxVaults == 0 || |present| < maxVaults)
                       && (org, d.user) in o.world.db.members && o.world.db.members[(org, d.user)] != Member;
            && (!may ==> after == o)
            && (may ==>
                  && after.vaultKeys == o.vaultKeys[d.vault := key] && after.writers == o.writers[k := Initially]
                  && after.nextId == o.nextId + 2 && after.devices == o.devices && after.issued == o.issued
                  && d.vault in after.world.db.vaults && after.world.db.vaults[d.vault].org == org
                  && k in after.world.db.wrappers && after.world.db.wrappers[k].revokedAt == None
                  && forall attempt, binding ::
                       Unwrap(attempt, after.world.db.wrappers[k].envelope, binding) == Ok(key) <==> attempt == password)
  {
    var d := o.devices[i];
    var wrapped := Wrap(password, key, None, o.nextId, o.nextId + 1);
    SealedOpens(password, key, None, o.nextId, o.nextId + 1);
    if wrapped.Ok? {
      CreatesVaultExactly(o.world.db, d.vault, org, d.user, wrapped.value, maxVaults, o.world.now);
    }
    CreatingWrites(o, i, org, key, password, maxVaults);
    hide Unwrap, Wrap, NormalizePassword, CreateVault, StepFleet;
  }

  lemma CreatingWrites(o: Fleet, i: DeviceId, org: OrgId, key: Bytes, password: Password, maxVaults: nat)
    requires i in o.devices
    ensures var d := o.devices[i];
            var after := StepFleet(o, CreateVaultOn(i, org, key, password, maxVaults));
            var wrapped := Wrap(password, key, None, o.nextId, o.nextId + 1);
            var created := && wrapped.Ok? && d.vault !in o.vaultKeys && d.vault !in o.world.db.vaults
                           && CreateVault(o.world.db, d.vault, org, d.user, wrapped.value, maxVaults, o.world.now).1;
            && (!created ==> after == o)
            && (created ==>
                  && after.world.db == CreateVault(o.world.db, d.vault, org, d.user, wrapped.value, maxVaults, o.world.now).0
                  && after.vaultKeys == o.vaultKeys[d.vault := key] && after.writers == o.writers[(d.vault, d.user) := Initially]
                  && after.nextId == o.nextId + 2 && after.devices == o.devices && after.issued == o.issued)
  {
    hide Unwrap, Wrap, NormalizePassword, CreateVault, Removals;
  }

  /** The service takes its own steps among the devices', except the ones a device must take: key requests,
      approvals, completions, password changes and new vaults. */
  lemma ServesExactly(o: Fleet, step: Step)
    ensures var after := StepFleet(o, Serve(step));
            var clients := || (step.Begin? && (step.call.Start? || step.call.Approve? || step.call.Complete?))
                           || (step.Administer? && (step.statement.ReplaceWrapper? || step.statement.InsertVault?));
            && (clients ==> after == o)
            && (!clients ==> after == o.(world := SharingService.Apply(o.world, step), writers := after.writers))
  {
    hide SharingService.Apply, WriterAfter;
  }

  /** A device does one thing at a time, in order: each step does nothing unless the device has come to it. */
  lemma AskingComesInOrder(o: Fleet, i: DeviceId, t: ThreadId)
    requires i in o.devices
    ensures var a := o.devices[i].activity;
            && (!a.Resting? ==> StepFleet(o, BeginRequest(i)) == o && StepFleet(o, ForgetReceiver(i)) == o)
            && (!a.Starting? || t in o.world.threads ==> StepFleet(o, SendStart(i, t)) == o)
            && (!a.AwaitingStart? ==> StepFleet(o, FinishStart(i)) == o)
  {
    hide ApplyFinishStart, WithDevice, SharingService.Apply;
  }

  lemma UnlockingComesInOrder(o: Fleet, i: DeviceId, password: Password)
    requires i in o.devices
    ensures var a := o.devices[i].activity;
            && (!a.Resting? ==> StepFleet(o, FleetStep.Receive(i, password)) == o)
            && (!a.Receiving? ==> StepFleet(o, Fetch(i)) == o)
            && (!a.Fetched? ==> StepFleet(o, Unlock(i)) == o)
  {
    hide ApplyUnlock, ApplyFetch, WithDevice;
  }

  lemma SendingComesInOrder(o: Fleet, i: DeviceId, t: ThreadId)
    requires i in o.devices
    ensures var a := o.devices[i].activity;
            && (!a.Unlocked? ==> StepFleet(o, Prepare(i)) == o)
            && (!a.Prepared? ==> StepFleet(o, Persist(i)) == o)
            && (!a.Persisted? || t in o.world.threads ==> StepFleet(o, SendComplete(i, t)) == o)
            && (!a.Awaiting? ==> StepFleet(o, FinishReceive(i)) == o)
  {
    hide ApplyPrepare, ApplyFinishReceive, WithDevice, SharingService.Apply;
  }

  /** A crash forgets what the device was doing, and nothing it has stored. */
  lemma CrashForgetsOnlyTheActivity(o: Fleet, i: DeviceId)
    requires i in o.devices
    ensures StepFleet(o, Crash(i)) == o.(devices := o.devices[i := o.devices[i].(activity := Resting)])
    ensures StepFleet(o, ForgetReceiver(i))
         == if o.devices[i].activity.Resting? then o.(devices := o.devices[i := o.devices[i].(receiver := None)]) else o
  {
  }
}
