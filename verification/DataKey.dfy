/** One data key for ever: what runs of the fleet guarantee about wrappers, sessions and transfers. */
module DataKey {
  import opened Wrappers
  import opened VaultCrypto
  import opened SharingTables
  import opened SharingService
  import opened SharingSafety
  import opened SharingEpochs
  import opened KeyDelivery
  import opened KeyDeliverySafety

  lemma StepGrows(o: Fleet, step: FleetStep)
    requires FleetInv(o)
    ensures Grows(o, StepFleet(o, step))
  {
    if !step.Serve? && !step.AddDevice? && step.device in o.devices {
      DeviceIsSound(o, step.device);
      hide FleetInv, StepOn, DeviceSound, ReceiverSound;
      if step.SendComplete? {
        SendGrows(o, step.device, step.thread);
        SendIsApplied(o, step.device, step.thread);
      }
    }
  }

  lemma SendIsApplied(o: Fleet, i: DeviceId, t: ThreadId)
    requires i in o.devices
    ensures StepOn(o, SendComplete(i, t)) == if o.devices[i].activity.Persisted? then ApplySend(o, i, t) else o
  {
    hide ApplySend;
  }

  lemma SendGrows(o: Fleet, i: DeviceId, t: ThreadId)
    requires i in o.devices && DeviceSound(o, o.devices[i])
    ensures o.devices[i].activity.Persisted? ==> Grows(o, ApplySend(o, i, t))
  {
    hide SharingService.Apply, GoodWrapper;
    var d := o.devices[i];
    if d.activity.Persisted? && d.receiver.Some? {
      assert ReceiverSound(o, d, d.receiver.value);
    }
  }

  lemma {:induction false} RunGrows(o: Fleet, steps: seq<FleetStep>)
    requires FleetInv(o)
    ensures Grows(o, RunFleet(o, steps))
    decreases |steps|
  {
    hide FleetInv, StepFleet;
    if steps != [] {
      StepGrows(o, steps[0]);
      FleetStepKeepsInv(o, steps[0]);
      RunGrows(StepFleet(o, steps[0]), steps[1..]);
    }
  }

  /** One data key for ever: a vault's key never changes; every wrapper the server would hand out
      opens to it with its own password and binding, and with no other password; every unlocked
      session holds it; and every stored transfer gives it to exactly the receiver it is for. */
  lemma OneDataKeyForEver(members: map<(OrgId, UserId), Role>, emails: map<UserId, Email>, now: int, before: seq<FleetStep>,
                          after: seq<FleetStep>, v: VaultId, u: UserId, password: Password)
    ensures var o := RunFleet(NewFleet(members, emails, now), before);
            var later := RunFleet(o, after);
            && (v in o.vaultKeys ==> v in later.vaultKeys && later.vaultKeys[v] == o.vaultKeys[v])
            && (PasswordWrapper(later.world.db, v, u).Some? ==>
                  var e := PasswordWrapper(later.world.db, v, u).value;
                  && v in later.vaultKeys
                  && (Unwrap(password, e, Some(Binding(v, u))) == Ok(later.vaultKeys[v]) <==>
                        password == e.ciphertext.key.password)
                  && (Unwrap(password, e, Some(Binding(v, u))).Ok? ==>
                        Unwrap(password, e, Some(Binding(v, u))).value == later.vaultKeys[v]))
            && (forall i | i in later.devices && later.devices[i].session.Some? ::
                  later.devices[i].vault in later.vaultKeys
                  && later.devices[i].session.value == later.vaultKeys[later.devices[i].vault])
            && (forall id | id in later.world.db.requests && later.world.db.requests[id].envelope.Some? ::
                  var r := later.world.db.requests[id];
                  r.vault in later.vaultKeys
                  && DecryptTransferred(r.envelope.value, r.publicKey, ContextOf(id, r)) == Ok(later.vaultKeys[r.vault]))
  {
    hide FleetInv, RunFleet, NewFleet, Unwrap, DecryptTransferred, GoodRow;
    InitialFleetInv(members, emails, now);
    FleetRunKeepsInv(NewFleet(members, emails, now), before);
    var o := RunFleet(NewFleet(members, emails, now), before);
    FleetRunKeepsInv(o, after);
    RunGrows(o, after);
    var later := RunFleet(o, after);
    if PasswordWrapper(later.world.db, v, u).Some? {
      WrapperOpensOnlyToTheKey(later, v, u, password);
    }
    SessionsHoldTheKey(later);
    RowsAreGood(later);
    KeyLengths(later);
    forall id | id in later.world.db.requests && later.world.db.requests[id].envelope.Some?
      ensures var r := later.world.db.requests[id];
              r.vault in later.vaultKeys
              && DecryptTransferred(r.envelope.value, r.publicKey, ContextOf(id, r)) == Ok(later.vaultKeys[r.vault])
    {
      TransferGivesTheKey(later, id);
    }
  }

  lemma WrapperOpensOnlyToTheKey(o: Fleet, v: VaultId, u: UserId, password: Password)
    requires FleetInv(o) && PasswordWrapper(o.world.db, v, u).Some?
    ensures var e := PasswordWrapper(o.world.db, v, u).value;
            && v in o.vaultKeys
            && (Unwrap(password, e, Some(Binding(v, u))) == Ok(o.vaultKeys[v]) <==> password == e.ciphertext.key.password)
            && (Unwrap(password, e, Some(Binding(v, u))).Ok? ==>
                  Unwrap(password, e, Some(Binding(v, u))).value == o.vaultKeys[v])
  {
    WrappersAreGood(o);
    var e := PasswordWrapper(o.world.db, v, u).value;
    assert GoodWrapper(o, v, u, e);
    hide FleetInv;
    UnwrapRevealsOnlyTheSealedKey(password, e, Some(Binding(v, u)));
    UnwrapRevealsOnlyTheSealedKey(e.ciphertext.key.password, e, Some(Binding(v, u)));
  }

  lemma SessionsHoldTheKey(o: Fleet)
    requires FleetInv(o)
    ensures forall i | i in o.devices && o.devices[i].session.Some? ::
              o.devices[i].vault in o.vaultKeys && o.devices[i].session.value == o.vaultKeys[o.devices[i].vault]
  {
    forall i | i in o.devices && o.devices[i].session.Some?
      ensures o.devices[i].vault in o.vaultKeys && o.devices[i].session.value == o.vaultKeys[o.devices[i].vault]
    {
      DeviceIsSound(o, i);
      hide FleetInv;
    }
  }

  lemma TransferGivesTheKey(o: Fleet, id: RequestId)
    requires id in o.world.db.requests && GoodRow(o, id, o.world.db.requests[id]) && o.world.db.requests[id].envelope.Some?
    requires forall v | v in o.vaultKeys :: |o.vaultKeys[v]| == VAULT_KEY_BYTES
    ensures var r := o.world.db.requests[id];
            r.vault in o.vaultKeys
            && DecryptTransferred(r.envelope.value, r.publicKey, ContextOf(id, r)) == Ok(o.vaultKeys[r.vault])
  {
  }

  /** However often receiving is interrupted and retried, every completion sent for a request carries
      the same wrapper, in this state and in every later one. */
  lemma NoSecondWrapper(o: Fleet, steps: seq<FleetStep>, id: RequestId, early: ThreadId, late: ThreadId)
    requires FleetInv(o) && early in o.world.threads && o.world.threads[early].call.Complete?
    requires o.world.threads[early].call.request == id
    ensures var later := RunFleet(o, steps);
            late in later.world.threads && later.world.threads[late].call.Complete?
            && later.world.threads[late].call.request == id ==>
              later.world.threads[late].call.envelope == o.world.threads[early].call.envelope
  {
    FleetRunKeepsInv(o, steps);
    RunGrows(o, steps);
    assert CallSound(o, o.world.threads[early].call);
    var later := RunFleet(o, steps);
    if late in later.world.threads {
      assert CallSound(later, later.world.threads[late].call);
    }
    hide FleetInv, RunFleet, GoodWrapper;
  }

  /** A completed request that matches the stored receiver was completed with what that receiver
      prepared; and unless the password was changed since, that is the wrapper the server holds. */
  lemma CompletedMeansPrepared(o: Fleet, i: DeviceId)
    requires FleetInv(o) && i in o.devices && o.devices[i].receiver.Some?
    ensures var d := o.devices[i];
            var r := d.receiver.value;
            r.id in o.world.db.requests && o.world.db.requests[r.id].status.Completed? ==>
              && r.prepared.Some?
              && ((d.vault, d.user) in o.writers && o.writers[(d.vault, d.user)] == ByRequest(r.id) ==>
                    (d.vault, d.user) in o.world.db.wrappers
                    && o.world.db.wrappers[(d.vault, d.user)].envelope == r.prepared.value)
  {
    DeviceIsSound(o, i);
    RowsAreGood(o);
    var d := o.devices[i];
    assert WriterSound(o, (d.vault, d.user));
    hide FleetInv, GoodWrapper, GoodTransfer;
  }
}
