/** The whole way of a key: a member without one asks, a manager with an open session approves, and
    the member receives it, from any reachable state and whatever else is going on. */
module KeyHandover {
  import opened Wrappers
  import opened VaultCrypto
  import opened SharingTables
  import opened SharingService
  import opened SharingSafety
  import opened SharingEpochs
  import opened SharingCalls
  import opened SharingAlone
  import opened KeyDelivery
  import opened KeyDeliverySafety
  import opened DataKey
  import opened KeyReceipt

  /** A step, or several, that keep what is known of keys. */
  ghost predicate Leads(o: Fleet, next: Fleet) {
    FleetInv(next) && Grows(o, next)
  }

  lemma StepLeads(o: Fleet, step: FleetStep)
    requires FleetInv(o)
    ensures Leads(o, StepFleet(o, step))
  {
    hide FleetInv, StepFleet;
    StepGrows(o, step);
    FleetStepKeepsInv(o, step);
  }

  lemma LeadsOn(o: Fleet, a: Fleet, b: Fleet)
    requires Leads(o, a) && Leads(a, b)
    ensures Leads(o, b)
  {
    hide FleetInv;
  }

  lemma {:induction false} ServingLeads(o: Fleet, t: ThreadId, n: nat)
    requires FleetInv(o)
    ensures Leads(o, ServeTimes(o, t, n))
    decreases n
  {
    hide FleetInv, StepFleet;
    if n > 0 {
      StepLeads(o, Serve(Advance(t, true, 0)));
      ServingLeads(StepFleet(o, Serve(Advance(t, true, 0))), t, n - 1);
      LeadsOn(o, StepFleet(o, Serve(Advance(t, true, 0))), ServeTimes(o, t, n));
    }
  }

  lemma CallLeads(o: Fleet, t: ThreadId)
    requires FleetInv(o)
    ensures Leads(o, AfterCall(o, t))
  {
    hide FleetInv;
    ServingLeads(o, t, MOST_STEPS);
    AfterCallIs(o, t);
  }

  // ------------------------------------------------------------------- asking

  /** The device asks for the key and hears that its request is stored. */
  function Asked(o: Fleet, i: DeviceId, t: ThreadId): Fleet {
    StepFleet(AfterCall(Asking(o, i, t), t), FinishStart(i))
  }

  function Asking(o: Fleet, i: DeviceId, t: ThreadId): Fleet {
    StepFleet(StepFleet(o, BeginRequest(i)), SendStart(i, t))
  }

  /** A member's device at rest, with no live request of its own; the service's clock and tables
      admit one. */
  predicate MayAsk(o: Fleet, i: DeviceId) {
    && i in o.devices && o.devices[i].activity.Resting?
    && (o.devices[i].receiver.Some? ==> o.devices[i].receiver.value.expiresAt <= o.world.now)
    && LiveVault(o.world.db, o.devices[i].vault) && IsMember(o.world.db, o.devices[i].vault, o.devices[i].user)
  }

  function FreshReceiver(o: Fleet): Receiver {
    Receiver(o.nextId, o.nextId + 1, o.world.now + REQUEST_LIFETIME_MS, None)
  }

  lemma AskingBegins(o: Fleet, i: DeviceId, t: ThreadId)
    requires MayAsk(o, i) && t !in o.world.threads
    ensures var d := o.devices[i];
            var r := FreshReceiver(o);
            var asking := Asking(o, i, t);
            && asking.world == SharingService.Apply(o.world, Begin(t, Start(d.user, d.vault, r.id, r.keyPair)))
            && asking.devices == o.devices[i := d.(receiver := Some(r), activity := AwaitingStart(t))]
  {
    hide SharingService.Apply, LiveVault, IsMember;
    var d := o.devices[i];
    var r := FreshReceiver(o);
    var begun := StepFleet(o, BeginRequest(i));
    assert begun.world == o.world && begun.devices == o.devices[i := d.(receiver := Some(r), activity := Starting(r))];
    var asking := StepFleet(begun, SendStart(i, t));
    assert asking.devices == begun.devices[i := d.(receiver := Some(r), activity := AwaitingStart(t))];
  }

  lemma AskingEnds(o: Fleet, i: DeviceId, d: Device, r: Receiver, t: ThreadId)
    requires i in o.devices && o.devices[i] == d.(receiver := Some(r), activity := AwaitingStart(t))
    requires t in o.world.threads && o.world.threads[t].pc.Done?
    requires r.id in o.world.db.requests && o.world.threads[t].row == Some(o.world.db.requests[r.id])
    requires o.world.db.requests[r.id].status.Pending? && o.world.db.requests[r.id].expiresAt > o.world.now
    ensures StepFleet(o, FinishStart(i)) == o.(devices := o.devices[i := d.(receiver := Some(r), activity := Resting)])
  {
  }

  /** Everything the device asked for is in place. */
  ghost predicate Waiting(o: Fleet, asked: Fleet, i: DeviceId) {
    && Leads(o, asked) && i in o.devices && asked.world.now == o.world.now
    && var d := o.devices[i];
       var r := FreshReceiver(o);
       && asked.devices == o.devices[i := d.(receiver := Some(r), activity := Resting)]
       && AwaitsApproval(asked.world.db, r.id, d.user, d.vault, r.keyPair, o.world.now)
       && OnlyAsked(o.world.db, asked.world.db, (d.vault, d.user))
  }

  /** Only the account's own grant and the vault's requests have changed. */
  predicate OnlyAsked(before: Db, after: Db, k: (VaultId, UserId)) {
    && after == before.(grants := after.grants, requests := after.requests)
    && forall other | other in before.grants && other != k :: other in after.grants && after.grants[other] == before.grants[other]
  }

  lemma StartIsGranted(o: Fleet, i: DeviceId)
    requires FleetInv(o) && MayAsk(o, i)
    ensures var d := o.devices[i];
            var r := FreshReceiver(o);
            var (after, ok) := Outcome(o.world.db, Start(d.user, d.vault, r.id, r.keyPair), true, 0, o.world.now, o.world.nextRevision);
            ok && AwaitsApproval(after, r.id, d.user, d.vault, r.keyPair, o.world.now) && OnlyAsked(o.world.db, after, (d.vault, d.user))
  {
    FreshIdIsUnused(o);
    MayAskMayCall(o, i);
    var d := o.devices[i];
    var r := FreshReceiver(o);
    hide FleetInv, StartOutcome, MayCall, AwaitsApproval, EnsureEnrollment, MayAsk;
    StartMeans(o.world.db, d.user, d.vault, r.id, r.keyPair, true, o.world.now);
  }

  lemma AskingSucceeds(o: Fleet, i: DeviceId, t: ThreadId)
    requires FleetInv(o) && MayAsk(o, i) && t !in o.world.threads
    ensures var asked := Asked(o, i, t);
            Waiting(o, asked, i) && t in asked.world.threads && asked.world.threads - {t} == o.world.threads
  {
    AskingLeads(o, i, t);
    StartIsGranted(o, i);
    AskingBegins(o, i, t);
    assert i in o.devices;
    var d := o.devices[i];
    var r := FreshReceiver(o);
    var asking := Asking(o, i, t);
    hide *;
    CallIsServed(asking, o.world, t, Start(d.user, d.vault, r.id, r.keyPair));
    AskedEnds(o, asking, i, r, t);
  }

  lemma AskedEnds(o: Fleet, asking: Fleet, i: DeviceId, r: Receiver, t: ThreadId)
    requires i in o.devices && r == FreshReceiver(o) && asking == Asking(o, i, t) && Leads(o, Asked(o, i, t))
    requires asking.devices == o.devices[i := o.devices[i].(receiver := Some(r), activity := AwaitingStart(t))]
    requires var served := AfterCall(asking, t);
             && served.devices == asking.devices && served.world.now == o.world.now
             && t in served.world.threads && served.world.threads[t].pc.Done? && served.world.threads - {t} == o.world.threads
             && r.id in served.world.db.requests && served.world.threads[t].row == Some(served.world.db.requests[r.id])
             && AwaitsApproval(served.world.db, r.id, o.devices[i].user, o.devices[i].vault, r.keyPair, o.world.now)
             && OnlyAsked(o.world.db, served.world.db, (o.devices[i].vault, o.devices[i].user))
    ensures var asked := Asked(o, i, t);
            Waiting(o, asked, i) && t in asked.world.threads && asked.world.threads - {t} == o.world.threads
  {
    hide *;
    var d := o.devices[i];
    var served := AfterCall(asking, t);
    AwaitingIsPending(served.world.db, r.id, d.user, d.vault, r.keyPair, o.world.now);
    AskingEnds(served, i, d, r, t);
    AskedIs(o, i, t);
    assert served.devices[i := d.(receiver := Some(r), activity := Resting)]
        == o.devices[i := d.(receiver := Some(r), activity := Resting)];
    Waits(o, Asked(o, i, t), i);
  }

  lemma AskedIs(o: Fleet, i: DeviceId, t: ThreadId)
    ensures Asked(o, i, t) == StepFleet(AfterCall(Asking(o, i, t), t), FinishStart(i))
  {
    hide StepFleet, AfterCall;
  }

  lemma Waits(o: Fleet, asked: Fleet, i: DeviceId)
    requires Leads(o, asked) && i in o.devices && asked.world.now == o.world.now
    requires asked.devices == o.devices[i := o.devices[i].(receiver := Some(FreshReceiver(o)), activity := Resting)]
    requires var r := FreshReceiver(o);
             AwaitsApproval(asked.world.db, r.id, o.devices[i].user, o.devices[i].vault, r.keyPair, o.world.now)
    requires OnlyAsked(o.world.db, asked.world.db, (o.devices[i].vault, o.devices[i].user))
    ensures Waiting(o, asked, i)
  {
    hide Leads, AwaitsApproval, OnlyAsked;
  }

  lemma MayAskMayCall(o: Fleet, i: DeviceId)
    requires MayAsk(o, i)
    ensures MayCall(o.world.db, o.devices[i].user, o.devices[i].vault, false, true)
  {
  }

  lemma FreshIdIsUnused(o: Fleet)
    requires FleetInv(o)
    ensures o.nextId !in o.world.db.requests
  {
    RowsAreGood(o);
  }

  lemma AwaitingIsPending(db: Db, id: RequestId, user: UserId, vault: VaultId, publicKey: KeyPairId, now: int)
    requires AwaitsApproval(db, id, user, vault, publicKey, now)
    ensures id in db.requests && db.requests[id].status.Pending? && db.requests[id].expiresAt > now
  {
  }

  lemma AskingLeads(o: Fleet, i: DeviceId, t: ThreadId)
    requires FleetInv(o)
    ensures Leads(o, Asked(o, i, t))
  {
    hide FleetInv, StepFleet, AfterCall, Leads;
    StepLeads(o, BeginRequest(i));
    var o1 := StepFleet(o, BeginRequest(i));
    LeadsIsSound(o, o1);
    StepLeads(o1, SendStart(i, t));
    var o2 := StepFleet(o1, SendStart(i, t));
    LeadsOn(o, o1, o2);
    LeadsIsSound(o, o2);
    CallLeads(o2, t);
    var o3 := AfterCall(o2, t);
    LeadsOn(o, o2, o3);
    LeadsIsSound(o, o3);
    StepLeads(o3, FinishStart(i));
    LeadsOn(o, o3, StepFleet(o3, FinishStart(i)));
  }

  lemma LeadsIsSound(o: Fleet, next: Fleet)
    requires Leads(o, next)
    ensures FleetInv(next) && Grows(o, next)
  {
  }

  // ---------------------------------------------------------------- approving

  function CodeOf(o: Fleet, id: RequestId): VerificationCode
    requires id in o.world.db.requests
  {
    VerificationCode(o.world.db.requests[id].publicKey, ContextOf(id, o.world.db.requests[id]))
  }

  /** The approver compares the code and sends the key; the service answers. */
  function Granted(o: Fleet, j: DeviceId, id: RequestId, t: ThreadId): Fleet
    requires id in o.world.db.requests
  {
    AfterCall(StepFleet(o, ApproveRequestOn(j, id, CodeOf(o, id), t)), t)
  }

  /** A manager's device with an open session and an active grant. */
  predicate MayHandOver(o: Fleet, j: DeviceId) {
    && j in o.devices && o.devices[j].session.Some? && LiveVault(o.world.db, o.devices[j].vault)
    && IsVaultManager(o.world.db, o.devices[j].vault, o.devices[j].user)
    && (o.devices[j].vault, o.devices[j].user) in o.world.db.grants
    && o.world.db.grants[(o.devices[j].vault, o.devices[j].user)].status.Active?
  }

  /** Another account's request for the same vault, waiting for approval and free to be completed. */
  predicate MayBeGranted(o: Fleet, j: DeviceId, id: RequestId) {
    && j in o.devices && id in o.world.db.requests && id != NO_ID
    && var r := o.world.db.requests[id];
       && r.vault == o.devices[j].vault && r.user != o.devices[j].user && r.user != NO_ID && r.status.Pending?
       && r.expiresAt > o.world.now && IsMember(o.world.db, r.vault, r.user) && Enrolled(o.world.db, r.vault, r.user, r.accessVersion)
  }

  lemma EnrolledVersion(o: Fleet, v: VaultId, u: UserId, x: nat)
    requires FleetInv(o) && Enrolled(o.world.db, v, u, x)
    ensures x >= 1
  {
    InvOfFleet(o);
    hide FleetInv;
    assert GrantRules(View(o.world, v, u));
  }

  /** What the approver sends opens, and the call is begun. */
  lemma GrantBegins(o: Fleet, j: DeviceId, id: RequestId, t: ThreadId) returns (transfer: TransferEnvelope)
    requires FleetInv(o) && MayHandOver(o, j) && MayBeGranted(o, j, id) && t !in o.world.threads
    ensures var d := o.devices[j];
            var sent := StepFleet(o, ApproveRequestOn(j, id, CodeOf(o, id), t));
            && sent.world == SharingService.Apply(o.world, Begin(t, Approve(d.user, d.vault, id, transfer)))
            && sent.devices == o.devices
  {
    DeviceIsSound(o, j);
    KeyLengths(o);
    var d := o.devices[j];
    var r := o.world.db.requests[id];
    EnrolledVersion(o, r.vault, r.user, r.accessVersion);
    hide FleetInv, SharingService.Apply, LiveVault, IsVaultManager, IsMember, Enrolled, ReceiverSound, GoodWrapper;
    transfer := EncryptForReceiver(d.session.value, r.publicKey, ContextOf(id, r)).value;
    assert EncryptForReceiver(d.session.value, r.publicKey, ContextOf(id, r)) == Ok(transfer);
    ApproveIsSent(o, j, id, t, transfer);
  }

  lemma ApproveIsSent(o: Fleet, j: DeviceId, id: RequestId, t: ThreadId, transfer: TransferEnvelope)
    requires j in o.devices && o.devices[j].session.Some? && MayBeGranted(o, j, id) && t !in o.world.threads
    requires EncryptForReceiver(o.devices[j].session.value, o.world.db.requests[id].publicKey,
                                ContextOf(id, o.world.db.requests[id])) == Ok(transfer)
    ensures var d := o.devices[j];
            var sent := StepFleet(o, ApproveRequestOn(j, id, CodeOf(o, id), t));
            && sent.world == SharingService.Apply(o.world, Begin(t, Approve(d.user, d.vault, id, transfer)))
            && sent.devices == o.devices
  {
    hide EncryptForReceiver, SharingService.Apply, IsMember, Enrolled;
  }

  lemma ApprovalIsGranted(o: Fleet, j: DeviceId, id: RequestId, transfer: TransferEnvelope)
    requires MayHandOver(o, j) && MayBeGranted(o, j, id)
    ensures var d := o.devices[j];
            var (after, ok) := Outcome(o.world.db, Approve(d.user, d.vault, id, transfer), true, 0, o.world.now, o.world.nextRevision);
            && ok && id in after.requests && after == o.world.db.(requests := after.requests)
            && after.requests[id]
               == o.world.db.requests[id].(status := Approved, envelope := Some(transfer), approvedBy := Some(d.user))
  {
    var d := o.devices[j];
    assert MayApproveCall(o.world.db, d.user, d.vault, id, true, o.world.now) by { GrantedMayApprove(o, j, id); }
    hide MayHandOver, MayBeGranted, MayApproveCall, ApproveOutcome, Enrolled;
    ApproveMeans(o.world.db, d.user, d.vault, id, transfer, true, o.world.now);
  }

  lemma GrantedMayApprove(o: Fleet, j: DeviceId, id: RequestId)
    requires MayHandOver(o, j) && MayBeGranted(o, j, id)
    ensures MayApproveCall(o.world.db, o.devices[j].user, o.devices[j].vault, id, true, o.world.now)
  {
  }

  /** The request is approved; nothing else of the tables, and no device, has changed. */
  predicate ApprovedOnly(o: Fleet, granted: Fleet, id: RequestId) {
    && granted.devices == o.devices && granted.world.now == o.world.now
    && granted.world.db == o.world.db.(requests := granted.world.db.requests)
    && id in o.world.db.requests && id in granted.world.db.requests
    && var before, after := o.world.db.requests[id], granted.world.db.requests[id];
       after == before.(status := Approved, envelope := after.envelope, approvedBy := after.approvedBy)
  }

  lemma GrantSucceeds(o: Fleet, j: DeviceId, id: RequestId, t: ThreadId)
    requires FleetInv(o) && MayHandOver(o, j) && MayBeGranted(o, j, id) && t !in o.world.threads
    ensures var granted := Granted(o, j, id, t);
            && Leads(o, granted) && ApprovedOnly(o, granted, id)
            && t in granted.world.threads && granted.world.threads - {t} == o.world.threads
  {
    var transfer := GrantBegins(o, j, id, t);
    ApprovalIsGranted(o, j, id, transfer);
    GrantLeads(o, j, id, t);
    assert id in o.world.db.requests && j in o.devices;
    var d := o.devices[j];
    var sent := StepFleet(o, ApproveRequestOn(j, id, CodeOf(o, id), t));
    assert Granted(o, j, id, t) == AfterCall(sent, t);
    hide *;
    CallIsServed(sent, o.world, t, Approve(d.user, d.vault, id, transfer));
    ApprovesOnly(o, Granted(o, j, id, t), id);
  }

  lemma ApprovesOnly(o: Fleet, granted: Fleet, id: RequestId)
    requires granted.devices == o.devices && granted.world.now == o.world.now
    requires granted.world.db == o.world.db.(requests := granted.world.db.requests)
    requires id in o.world.db.requests && id in granted.world.db.requests
    requires var before, after := o.world.db.requests[id], granted.world.db.requests[id];
             after == before.(status := Approved, envelope := after.envelope, approvedBy := after.approvedBy)
    ensures ApprovedOnly(o, granted, id)
  {
  }

  lemma GrantLeads(o: Fleet, j: DeviceId, id: RequestId, t: ThreadId)
    requires FleetInv(o) && id in o.world.db.requests
    ensures Leads(o, Granted(o, j, id, t))
  {
    hide FleetInv, StepFleet, AfterCall, Leads;
    var step := ApproveRequestOn(j, id, CodeOf(o, id), t);
    StepLeads(o, step);
    LeadsIsSound(o, StepFleet(o, step));
    CallLeads(StepFleet(o, step), t);
    LeadsOn(o, StepFleet(o, step), AfterCall(StepFleet(o, step), t));
  }

  // ---------------------------------------------------------------- receiving

  function Received(o: Fleet, i: DeviceId, password: Password, t: ThreadId): Fleet {
    StepFleet(AfterCall(Resent(o, i, password, t), t), FinishReceive(i))
  }

  lemma ReceivingLeads(o: Fleet, i: DeviceId, password: Password, t: ThreadId)
    requires FleetInv(o)
    ensures Leads(o, Received(o, i, password, t))
  {
    hide FleetInv, StepFleet, AfterCall, Leads, RunFleet;
    var steps := [Receive(i, password), Fetch(i), Unlock(i), Prepare(i), Persist(i), SendComplete(i, t)];
    RunLeads(o, steps);
    ResentIsARun(o, i, password, t);
    var sent := Resent(o, i, password, t);
    LeadsIsSound(o, sent);
    CallLeads(sent, t);
    LeadsOn(o, sent, AfterCall(sent, t));
    LeadsIsSound(o, AfterCall(sent, t));
    StepLeads(AfterCall(sent, t), FinishReceive(i));
    LeadsOn(o, AfterCall(sent, t), StepFleet(AfterCall(sent, t), FinishReceive(i)));
  }

  lemma RunLeads(o: Fleet, steps: seq<FleetStep>)
    requires FleetInv(o)
    ensures Leads(o, RunFleet(o, steps))
  {
    hide FleetInv, RunFleet;
    FleetRunKeepsInv(o, steps);
    RunGrows(o, steps);
  }

  lemma ResentIsARun(o: Fleet, i: DeviceId, password: Password, t: ThreadId)
    ensures var steps := [Receive(i, password), Fetch(i), Unlock(i), Prepare(i), Persist(i), SendComplete(i, t)];
            Resent(o, i, password, t) == RunFleet(o, steps)
  {
    hide StepFleet;
    var steps := [Receive(i, password), Fetch(i), Unlock(i), Prepare(i), Persist(i), SendComplete(i, t)];
    assert steps[1..][1..] == steps[2..] && steps[2..][1..] == steps[3..] && steps[3..][1..] == steps[4..];
    assert steps[4..][1..] == steps[5..] && steps[5..][1..] == [];
    var o1 := StepFleet(o, steps[0]);
    var o2 := StepFleet(o1, steps[1]);
    assert RunFleet(o, steps) == RunFleet(o2, steps[2..]);
    var o3 := StepFleet(o2, steps[2]);
    var o4 := StepFleet(o3, steps[3]);
    assert RunFleet(o2, steps[2..]) == RunFleet(o4, steps[4..]);
    var o5 := StepFleet(o4, steps[4]);
    assert RunFleet(o4, steps[4..]) == RunFleet(StepFleet(o5, steps[5]), []);
  }

  /** The member has the key: a wrapper that the password opens to it, an active grant, and a device
      at rest that a session can be opened on. */
  predicate HasTheKey(o: Fleet, i: DeviceId, v: VaultId, u: UserId, password: Password) {
    && v in o.vaultKeys && PasswordWrapper(o.world.db, v, u).Some?
    && Unwrap(password, PasswordWrapper(o.world.db, v, u).value, Some(Binding(v, u))) == Ok(o.vaultKeys[v])
    && (v, u) in o.world.db.grants && o.world.db.grants[(v, u)].status.Active?
    && i in o.devices && o.devices[i].receiver.None? && o.devices[i].activity.Resting?
  }

  lemma ReceivingSucceeds(o: Fleet, i: DeviceId, password: Password, t: ThreadId)
    requires FleetInv(o) && ReceiveReady(o, i, password) && t !in o.world.threads
    ensures var end := Received(o, i, password, t);
            Leads(o, end) && HasTheKey(end, i, o.devices[i].vault, o.devices[i].user, password)
  {
    var d := o.devices[i];
    var end := Received(o, i, password, t);
    ReceivingLeads(o, i, password, t);
    LeadsIsSound(o, end);
    hide FleetInv, StepFleet, AfterCall, Leads, Resent, ReceiveReady, Unwrap, Readied;
    ReceiveSucceeds(o, i, password, t);
    var stored := Readied(o, i, password).devices[i].receiver.value;
    assert stored.prepared.value.ciphertext.key.password == password;
    assert PasswordWrapper(end.world.db, d.vault, d.user) == stored.prepared;
    WrapperOpensOnlyToTheKey(end, d.vault, d.user, password);
  }

  // ------------------------------------------------------------------ theorem

  /** The whole way, step by step: the request's identifier is the next fresh one. */
  function Handover(o: Fleet, i: DeviceId, j: DeviceId, password: Password, asks: ThreadId, approves: ThreadId,
                    completes: ThreadId): Fleet
    requires o.nextId in Asked(o, i, asks).world.db.requests
  {
    Received(Granted(Asked(o, i, asks), j, o.nextId, approves), i, password, completes)
  }

  /** A member's device and a manager's device of the same vault, ready for each other. */
  predicate Ready(o: Fleet, i: DeviceId, j: DeviceId, password: Password) {
    && MayAsk(o, i) && MayHandOver(o, j)
    && o.devices[i].vault == o.devices[j].vault && o.devices[i].user != o.devices[j].user
    && o.world.db.vaults[o.devices[i].vault].keyVersion == KEY_VERSION && NormalizePassword(password).Ok?
  }

  lemma AskedMayBeGranted(o: Fleet, asked: Fleet, i: DeviceId, j: DeviceId, password: Password)
    requires FleetInv(o) && o.nextId > NO_ID && Ready(o, i, j, password) && Waiting(o, asked, i)
    ensures MayHandOver(asked, j) && MayBeGranted(asked, j, o.nextId)
  {
    hide FleetInv, Leads, NormalizePassword;
    UserIsSomeone(o, i, j, password);
    assert asked.devices[j] == o.devices[j];
    var k := (o.devices[j].vault, o.devices[j].user);
    assert k in asked.world.db.grants && asked.world.db.grants[k] == o.world.db.grants[k];
  }

  lemma UserIsSomeone(o: Fleet, i: DeviceId, j: DeviceId, password: Password)
    requires FleetInv(o) && Ready(o, i, j, password)
    ensures i in o.devices && o.devices[i].user != NO_ID
  {
    ReadyMayAsk(o, i, j, password);
    hide FleetInv, Ready, ReceiverSound;
    DeviceIsSound(o, i);
  }

  lemma GrantedMayReceive(o: Fleet, asked: Fleet, granted: Fleet, i: DeviceId, j: DeviceId, password: Password)
    requires Ready(o, i, j, password) && Waiting(o, asked, i) && ApprovedOnly(asked, granted, o.nextId)
    ensures ReceiveReady(granted, i, password)
    ensures granted.devices[i].vault == o.devices[i].vault && granted.devices[i].user == o.devices[i].user
    ensures granted.devices[i].receiver == Some(FreshReceiver(o))
  {
    hide Leads, NormalizePassword;
  }

  /** From every reachable state: once a member asks and a manager with an open session compares the
      code and approves, the member's password opens the vault's key from then on. Other calls may be
      under way, whatever they have read. */
  lemma KeyReachesTheMember(members: map<(OrgId, UserId), Role>, emails: map<UserId, Email>, now: int, steps: seq<FleetStep>,
                            i: DeviceId, j: DeviceId, password: Password, asks: ThreadId, approves: ThreadId,
                            completes: ThreadId)
    requires var o := RunFleet(NewFleet(members, emails, now), steps);
             && Ready(o, i, j, password)
             && asks !in o.world.threads && approves !in o.world.threads && completes !in o.world.threads
             && asks != approves && approves != completes && asks != completes
    ensures var o := RunFleet(NewFleet(members, emails, now), steps);
            && o.nextId in Asked(o, i, asks).world.db.requests
            && var end := Handover(o, i, j, password, asks, approves, completes);
               && FleetInv(end) && Grows(o, end)
               && HasTheKey(end, i, o.devices[i].vault, o.devices[i].user, password)
  {
    var o := RunFleet(NewFleet(members, emails, now), steps);
    ReachedFleet(members, emails, now, steps);
    hide FleetInv, Ready, AfterCall, StepFleet, RunFleet, NewFleet, Leads, ReceiveReady, HasTheKey, Asked, Granted, Received;
    GrantedIsReceivable(o, i, j, password, asks, approves);
    var granted := Granted(Asked(o, i, asks), j, o.nextId, approves);
    LeadsIsSound(o, granted);
    ReceivingSucceeds(granted, i, password, completes);
    LeadsOn(o, granted, Received(granted, i, password, completes));
    LeadsIsSound(o, Received(granted, i, password, completes));
  }

  /** Once the manager has approved, the member's device can receive, and has prepared nothing yet. */
  lemma GrantedIsReceivable(o: Fleet, i: DeviceId, j: DeviceId, password: Password, asks: ThreadId, approves: ThreadId)
    requires FleetInv(o) && o.nextId > NO_ID && Ready(o, i, j, password)
    requires asks !in o.world.threads && approves !in o.world.threads && asks != approves
    ensures var asked := Asked(o, i, asks);
            && o.nextId in asked.world.db.requests
            && var granted := Granted(asked, j, o.nextId, approves);
               && Leads(o, granted) && ReceiveReady(granted, i, password)
               && i in o.devices && granted.devices[i].receiver == Some(FreshReceiver(o))
               && granted.devices[i].vault == o.devices[i].vault && granted.devices[i].user == o.devices[i].user
               && granted.world.threads.Keys == o.world.threads.Keys + {asks, approves}
  {
    hide FleetInv, Waiting, Ready, AfterCall, StepFleet, Leads, ApprovedOnly, ReceiveReady, FreshReceiver;
    hide Asked, Granted, MayHandOver, MayBeGranted, MayAsk;
    ReadyMayAsk(o, i, j, password);
    AskingSucceeds(o, i, asks);
    var asked := Asked(o, i, asks);
    WaitingIsStored(o, asked, i);
    AskedMayBeGranted(o, asked, i, j, password);
    GrantSucceeds(asked, j, o.nextId, approves);
    var granted := Granted(asked, j, o.nextId, approves);
    GrantedMayReceive(o, asked, granted, i, j, password);
    LeadsOn(o, asked, granted);
    assert asked.world.threads.Keys == (asked.world.threads - {asks}).Keys + {asks};
    assert granted.world.threads.Keys == (granted.world.threads - {approves}).Keys + {approves};
  }

  lemma ReadyMayAsk(o: Fleet, i: DeviceId, j: DeviceId, password: Password)
    requires Ready(o, i, j, password)
    ensures MayAsk(o, i) && i in o.devices
  {
  }

  lemma WaitingIsStored(o: Fleet, asked: Fleet, i: DeviceId)
    requires Waiting(o, asked, i)
    ensures FleetInv(asked) && Leads(o, asked) && o.nextId in asked.world.db.requests
  {
  }

  lemma ReachedFleet(members: map<(OrgId, UserId), Role>, emails: map<UserId, Email>, now: int, steps: seq<FleetStep>)
    ensures var o := RunFleet(NewFleet(members, emails, now), steps);
            FleetInv(o) && o.nextId > NO_ID
  {
    var start := NewFleet(members, emails, now);
    assert start.nextId > NO_ID;
    hide FleetInv, RunFleet, NewFleet;
    InitialFleetInv(members, emails, now);
    FleetRunKeepsInv(start, steps);
    RunGrows(start, steps);
  }

  // ------------------------------------------------------- a ready fleet

  /** An owner's device and a member's; the owner creates a vault and opens a session for it. */
  function Preparation(key: Bytes): seq<FleetStep> {
    [AddDevice(1, 10, 5), AddDevice(2, 20, 5), CreateVaultOn(1, 1, key, "secret", 0), OpenSession(1, "secret")]
  }

  function PreparedFleet(key: Bytes, now: int): Fleet {
    RunFleet(NewFleet(map[(1, 10) := Owner, (1, 20) := Member], map[], now), Preparation(key))
  }

  lemma RunsFour(o: Fleet, steps: seq<FleetStep>)
    requires |steps| == 4
    ensures RunFleet(o, steps) == StepFleet(StepFleet(StepFleet(StepFleet(o, steps[0]), steps[1]), steps[2]), steps[3])
  {
    hide StepFleet;
    assert steps[1..][1..] == steps[2..] && steps[2..][1..] == steps[3..] && steps[3..][1..] == [];
    var o1 := StepFleet(o, steps[0]);
    var o2 := StepFleet(o1, steps[1]);
    assert RunFleet(o, steps) == RunFleet(o2, steps[2..]);
    var o3 := StepFleet(o2, steps[2]);
    assert RunFleet(o2, steps[2..]) == RunFleet(o3, steps[3..]) == StepFleet(o3, steps[3]);
  }

  /** The owner's device creates the vault. */
  lemma VaultIsCreated(o: Fleet, key: Bytes)
    requires |key| == VAULT_KEY_BYTES
    requires 1 in o.devices && o.devices[1] == Device(10, 5, None, None, Resting) && o.vaultKeys == map[]
    requires o.world.db.vaults == map[] && o.world.db.grants == map[] && o.world.db.wrappers == map[]
    requires (1, 10) in o.world.db.members && o.world.db.members[(1, 10)].Owner?
    ensures var next := StepFleet(o, CreateVaultOn(1, 1, key, "secret", 0));
            var e := Wrap("secret", key, None, o.nextId, o.nextId + 1);
            && e.Ok? && next.devices == o.devices && next.world.threads == o.world.threads
            && next.world.db.members == o.world.db.members
            && VaultIn(next.world.db, 5, 1) && LiveVault(next.world.db, 5)
            && next.world.db.vaults[5].keyVersion == KEY_VERSION
            && (5, 10) in next.world.db.grants && next.world.db.grants[(5, 10)].status.Active?
            && PasswordWrapper(next.world.db, 5, 10) == Some(e.value)
  {
    SecretIsAPassword(key);
    var e := Wrap("secret", key, None, o.nextId, o.nextId + 1).value;
    VaultIsInserted(o.world, InsertVault(5, 1, 10, e, 0));
    hide NormalizePassword, Wrap, Exec, LiveVault, PasswordWrapper;
  }

  lemma SecretIsAPassword(key: Bytes)
    requires |key| == VAULT_KEY_BYTES
    ensures NormalizePassword("secret").Ok?
    ensures forall salt, nonce :: Wrap("secret", key, None, salt, nonce).Ok?
                                  && Wrap("secret", key, None, salt, nonce).value.keyVersion == KEY_VERSION
  {
  }

  lemma VaultIsInserted(w: World, s: Statement)
    requires s.InsertVault? && s.maxVaults == 0 && w.db.vaults == map[] && w.db.grants == map[] && w.db.wrappers == map[]
    requires (s.org, s.user) in w.db.members && w.db.members[(s.org, s.user)].Owner?
    ensures var (next, ok) := Exec(w, s);
            && ok && VaultIn(next.db, s.vault, s.org) && LiveVault(next.db, s.vault)
            && next.db.vaults[s.vault].keyVersion == s.envelope.keyVersion
            && (s.vault, s.user) in next.db.grants && next.db.grants[(s.vault, s.user)].status.Active?
            && PasswordWrapper(next.db, s.vault, s.user) == Some(s.envelope)
            && next.db.members == w.db.members && next.threads == w.threads
  {
    Untouched(w, s);
    hide MembersOf, LiveVaultIdsOf;
  }

  lemma SessionIsOpened(o: Fleet, key: Bytes, salt: Salt, nonce: Nonce)
    requires 1 in o.devices && o.devices[1] == Device(10, 5, None, None, Resting)
    requires Wrap("secret", key, None, salt, nonce).Ok?
    requires PasswordWrapper(o.world.db, 5, 10) == Some(Wrap("secret", key, None, salt, nonce).value)
    ensures StepFleet(o, OpenSession(1, "secret")) == o.(devices := o.devices[1 := Device(10, 5, None, Some(key), Resting)])
  {
    UnwrapInvertsWrapExactly("secret", key, None, salt, nonce, "secret", Some(Binding(5, 10)));
    hide Wrap, Unwrap, PasswordWrapper;
  }

  /** A fleet that is ready for the handover is reached in four steps. */
  lemma ReadyIsReached(key: Bytes, now: int)
    requires |key| == VAULT_KEY_BYTES
    ensures var o := PreparedFleet(key, now);
            Ready(o, 2, 1, "secret") && o.world.threads == map[]
  {
    var start := NewFleet(map[(1, 10) := Owner, (1, 20) := Member], map[], now);
    var o1 := StepFleet(start, AddDevice(1, 10, 5));
    var o2 := StepFleet(o1, AddDevice(2, 20, 5));
    assert o2 == start.(devices := o2.devices) && o2.devices[1] == Device(10, 5, None, None, Resting);
    assert 2 in o2.devices && o2.devices[2] == Device(20, 5, None, None, Resting);
    RunsFour(start, Preparation(key));
    SecretIsAPassword(key);
    VaultIsCreated(o2, key);
    var o3 := StepFleet(o2, CreateVaultOn(1, 1, key, "secret", 0));
    SessionIsOpened(o3, key, o2.nextId, o2.nextId + 1);
    var o := StepFleet(o3, OpenSession(1, "secret"));
    assert o == PreparedFleet(key, now);
    hide StepFleet, RunFleet, Wrap, NormalizePassword, PasswordWrapper, LiveVault, PreparedFleet, NewFleet;
    assert o.devices[2] == Device(20, 5, None, None, Resting);
  }
}
