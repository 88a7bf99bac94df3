/** How a vault's data key reaches its members: devices that crash, retry and lose replies run the
    recipient's and the approver's side against the sharing service. */
module KeyDelivery {
  import opened Wrappers
  import opened VaultCrypto
  import opened SharingTables
  import opened SharingService
  import opened SharingSafety
  import opened SharingEpochs

  type DeviceId = nat

  /** What a device stores about its request; the private key is the pair's own. */
  datatype Receiver = Receiver(id: RequestId, keyPair: KeyPairId, expiresAt: int, prepared: Option<PasswordEnvelope>)

  /** What a device is doing; a crash forgets it. */
  datatype Activity =
    | Resting
    | Starting(receiver: Receiver)
    | AwaitingStart(thread: ThreadId)
    | Receiving(password: Password, receiver: Receiver)
    | Fetched(password: Password, receiver: Receiver, row: KeyRequest)
    | Unlocked(password: Password, receiver: Receiver, key: Bytes)
    | Prepared(receiver: Receiver)
    | Persisted(receiver: Receiver)
    | Awaiting(thread: ThreadId, receiver: Receiver)

  /** One account's client for one vault. */
  datatype Device = Device(user: UserId, vault: VaultId, receiver: Option<Receiver>, session: Option<Bytes>, activity: Activity)

  datatype Writer = Initially | ByPasswordChange | ByRequest(request: RequestId)

  /** The service with its clients. The last three are histories: each vault's data key, the wrapper
      sent to complete each request, and what wrote each stored wrapper last. */
  datatype Fleet = Fleet(world: World, devices: map<DeviceId, Device>, nextId: nat, vaultKeys: map<VaultId, Bytes>,
                         issued: map<RequestId, PasswordEnvelope>, writers: map<(VaultId, UserId), Writer>)

  datatype FleetStep =
    | Serve(step: Step)
    | AddDevice(device: DeviceId, user: UserId, vault: VaultId)
    | CreateVaultOn(device: DeviceId, org: OrgId, key: Bytes, password: Password, maxVaults: nat)
    | OpenSession(device: DeviceId, password: Password)
    | ChangePassword(device: DeviceId, password: Password)
    | ApproveRequestOn(device: DeviceId, request: RequestId, code: VerificationCode, thread: ThreadId)
    | BeginRequest(device: DeviceId)
    | SendStart(device: DeviceId, thread: ThreadId)
    | FinishStart(device: DeviceId)
    | ForgetReceiver(device: DeviceId)
    | Receive(device: DeviceId, password: Password)
    | Fetch(device: DeviceId)
    | Unlock(device: DeviceId)
    | Prepare(device: DeviceId)
    | Persist(device: DeviceId)
    | SendComplete(device: DeviceId, thread: ThreadId)
    | FinishReceive(device: DeviceId)
    | Crash(device: DeviceId)

  function ContextOf(id: RequestId, r: KeyRequest): TransferContext {
    TransferContext(id, r.vault, r.user, r.accessVersion)
  }

  function BindingOf(d: Device): Option<Binding> {
    Some(Binding(d.vault, d.user))
  }

  function WithDevice(o: Fleet, i: DeviceId, d: Device): Fleet {
    o.(devices := o.devices[i := d])
  }

  function WithActivity(o: Fleet, i: DeviceId, activity: Activity): Fleet
    requires i in o.devices
  {
    WithDevice(o, i, o.devices[i].(activity := activity))
  }

  /** The wrapper a statement writes, if it writes one. */
  function WriterAfter(o: Fleet, s: Option<Statement>): map<(VaultId, UserId), Writer> {
    if s.None? then o.writers
    else
      match s.value
      case CompleteRequest(id, row, _) =>
        if MayComplete(o.world.db, id, row, o.world.now) then o.writers[(row.vault, row.user) := ByRequest(id)] else o.writers
      case _ => o.writers
  }

  /** Service steps that no device takes part in. */
  predicate Unattended(step: Step) {
    match step
    case Begin(_, call) => call.Invite? || call.Respond? || call.ChangeMember?
    case Administer(s) => !s.ReplaceWrapper? && !s.InsertVault?
    case _ => true
  }

  /** What is known of keys only grows. */
  predicate Grows(o: Fleet, next: Fleet) {
    && o.nextId <= next.nextId
    && (forall v | v in o.vaultKeys :: v in next.vaultKeys && next.vaultKeys[v] == o.vaultKeys[v])
    && (forall id | id in o.issued :: id in next.issued && next.issued[id] == o.issued[id])
  }

  function ApplyCreateVault(o: Fleet, d: Device, org: OrgId, key: Bytes, password: Password, maxVaults: nat): (r: Fleet)
    ensures Grows(o, r)
  {
    var wrapped := Wrap(password, key, None, o.nextId, o.nextId + 1);
    if wrapped.Err? || d.vault in o.vaultKeys || d.vault in o.world.db.vaults then o
    else
      var s := InsertVault(d.vault, org, d.user, wrapped.value, maxVaults);
      var (world, ok) := Exec(o.world, s);
      if ok then
        o.(world := world, nextId := o.nextId + 2, vaultKeys := o.vaultKeys[d.vault := key],
           writers := o.writers[(d.vault, d.user) := Initially])
      else o
  }

  /** Unlocks the account's own wrapper with the password. The access check that comes first read the
      tables at earlier moments, so it demands nothing of these. */
  function ApplyOpenSession(o: Fleet, i: DeviceId, password: Password): (r: Fleet)
    requires i in o.devices
    ensures r == o.(devices := r.devices)
  {
    var d := o.devices[i];
    var wrapper := PasswordWrapper(o.world.db, d.vault, d.user);
    if wrapper.None? then o
    else
      match Unwrap(password, wrapper.value, BindingOf(d))
      case Ok(key) => WithDevice(o, i, d.(session := Some(key)))
      case Err(_) => o
  }

  /** Rewraps the session's key; the service replaces the wrapper and cancels open requests. */
  function ApplyChangePassword(o: Fleet, d: Device, password: Password): (r: Fleet)
    ensures Grows(o, r)
  {
    if d.session.None? then o
    else
      var wrapped := Wrap(password, d.session.value, BindingOf(d), o.nextId, o.nextId + 1);
      if wrapped.Err? then o
      else
        var (world, ok) := Exec(o.world, ReplaceWrapper(d.vault, d.user, wrapped.value));
        if ok then o.(world := world, nextId := o.nextId + 2, writers := o.writers[(d.vault, d.user) := ByPasswordChange]) else o
  }

  /** The approver encrypts its session key to a request of another user whose code matches. It read the
      row earlier, so what it saw of the status and the expiry is no condition on the present ones; the
      columns used here never change. */
  function ApplyApprove(o: Fleet, d: Device, id: RequestId, code: VerificationCode, t: ThreadId): (r: Fleet)
    ensures r == o.(world := r.world)
  {
    if d.session.None? || id !in o.world.db.requests || t in o.world.threads then o
    else
      var r := o.world.db.requests[id];
      if r.vault != d.vault || r.user == d.user || code != VerificationCode(r.publicKey, ContextOf(id, r)) then o
      else
        match EncryptForReceiver(d.session.value, r.publicKey, ContextOf(id, r))
        case Ok(transfer) => o.(world := SharingService.Apply(o.world, Begin(t, Approve(d.user, d.vault, id, transfer))))
        case Err(_) => o
  }

  /** Persists a fresh receiver before anything is sent, unless an unexpired one is stored. */
  function ApplyBegin(o: Fleet, i: DeviceId): (r: Fleet)
    requires i in o.devices
    ensures r == o.(devices := r.devices, nextId := r.nextId) && o.nextId <= r.nextId
  {
    var d := o.devices[i];
    if !d.activity.Resting? then o
    else if d.receiver.Some? && d.receiver.value.expiresAt > o.world.now then WithActivity(o, i, Starting(d.receiver.value))
    else
      var receiver := Receiver(o.nextId, o.nextId + 1, o.world.now + REQUEST_LIFETIME_MS, None);
      WithDevice(o.(nextId := o.nextId + 2), i, d.(receiver := Some(receiver), activity := Starting(receiver)))
  }

  predicate IsRecipient(d: Device, receiver: Receiver, r: KeyRequest) {
    r.user == d.user && r.vault == d.vault && r.publicKey == receiver.keyPair
  }

  function ApplyFinishStart(o: Fleet, i: DeviceId): (r: Fleet)
    requires i in o.devices && o.devices[i].activity.AwaitingStart?
    ensures r == o.(devices := r.devices)
  {
    var d := o.devices[i];
    var t := d.activity.thread;
    if t !in o.world.threads || !(o.world.threads[t].pc.Done? || o.world.threads[t].pc.Failed?) then o
    else
      var th := o.world.threads[t];
      if && th.pc.Done? && th.row.Some? && d.receiver.Some? && IsRecipient(d, d.receiver.value, th.row.value)
         && (th.row.value.status.Canceled? || th.row.value.expiresAt <= o.world.now)
      then WithDevice(o, i, d.(receiver := None, activity := Resting)) else WithActivity(o, i, Resting)
  }

  function ApplyReceive(o: Fleet, i: DeviceId, password: Password): (r: Fleet)
    requires i in o.devices
    ensures r == o.(devices := r.devices)
  {
    var d := o.devices[i];
    if !d.activity.Resting? || d.receiver.None? || d.receiver.value.expiresAt <= o.world.now || NormalizePassword(password).Err?
    then o else WithActivity(o, i, Receiving(password, d.receiver.value))
  }

  /** Reads the request back; it must be the device's own, unexpired, and approved or completed. The
      service's guards came earlier here too. */
  function ApplyFetch(o: Fleet, i: DeviceId): (r: Fleet)
    requires i in o.devices && o.devices[i].activity.Receiving?
    ensures r == o.(devices := r.devices)
  {
    var d := o.devices[i];
    var c := d.activity.receiver;
    if && c.id in o.world.db.requests
       && IsRecipient(d, c, o.world.db.requests[c.id]) && o.world.db.requests[c.id].expiresAt > o.world.now
       && o.world.db.requests[c.id].status in {RequestStatus.Approved, Completed}
    then WithActivity(o, i, Fetched(d.activity.password, c, o.world.db.requests[c.id])) else WithActivity(o, i, Resting)
  }

  /** The key comes from the prepared wrapper if there is one, else from the transfer. */
  function ApplyUnlock(o: Fleet, i: DeviceId): (r: Fleet)
    requires i in o.devices && o.devices[i].activity.Fetched?
    ensures r == o.(devices := r.devices)
  {
    var d := o.devices[i];
    var c := d.activity.receiver;
    var row := d.activity.row;
    var key :=
      if c.prepared.Some? then Unwrap(d.activity.password, c.prepared.value, BindingOf(d))
      else if row.envelope.None? || !row.status.Approved? then Err(InvalidEnvelope)
      else DecryptTransferred(row.envelope.value, c.keyPair, ContextOf(c.id, row));
    match key
    case Ok(k) => WithActivity(o, i, Unlocked(d.activity.password, c, k))
    case Err(_) => WithActivity(o, i, Resting)
  }

  function ApplyPrepare(o: Fleet, i: DeviceId): (r: Fleet)
    requires i in o.devices && o.devices[i].activity.Unlocked?
    ensures r == o.(devices := r.devices, nextId := r.nextId) && o.nextId <= r.nextId
  {
    var d := o.devices[i];
    var c := d.activity.receiver;
    if c.prepared.Some? then WithActivity(o, i, Persisted(c))
    else
      match Wrap(d.activity.password, d.activity.key, BindingOf(d), o.nextId, o.nextId + 1)
      case Ok(e) => WithActivity(o.(nextId := o.nextId + 2), i, Prepared(c.(prepared := Some(e))))
      case Err(_) => WithActivity(o, i, Resting)
  }

  function ApplySend(o: Fleet, i: DeviceId, t: ThreadId): Fleet
    requires i in o.devices && o.devices[i].activity.Persisted?
  {
    var d := o.devices[i];
    var c := d.activity.receiver;
    if t in o.world.threads || c.prepared.None? then o
    else
      var call := Complete(d.user, d.vault, c.id, c.prepared.value);
      WithActivity(o.(world := SharingService.Apply(o.world, Begin(t, call)), issued := o.issued[c.id := c.prepared.value]),
                   i, Awaiting(t, c))
  }

  /** A success clears the receiver; a failure keeps it for a retry. */
  function ApplyFinishReceive(o: Fleet, i: DeviceId): (r: Fleet)
    requires i in o.devices && o.devices[i].activity.Awaiting?
    ensures r == o.(devices := r.devices)
  {
    var d := o.devices[i];
    var t := d.activity.thread;
    if t !in o.world.threads then o
    else if o.world.threads[t].pc.Done? then WithDevice(o, i, d.(receiver := None, activity := Resting))
    else if o.world.threads[t].pc.Failed? then WithActivity(o, i, Resting)
    else o
  }

  function StepOn(o: Fleet, step: FleetStep): (r: Fleet)
    requires !step.Serve? && !step.AddDevice? && step.device in o.devices
    ensures !step.SendComplete? ==> Grows(o, r)
  {
    hide ApplyCreateVault, ApplyOpenSession, ApplyChangePassword, ApplyApprove, ApplyBegin, ApplyFinishStart, ApplyReceive;
    hide ApplyFetch, ApplyUnlock, ApplyPrepare, ApplyFinishReceive, ApplySend, SharingService.Apply, NewThread;
    var i := step.device;
    var d := o.devices[i];
    match step
    case CreateVaultOn(_, org, key, password, maxVaults) => ApplyCreateVault(o, d, org, key, password, maxVaults)
    case OpenSession(_, password) => ApplyOpenSession(o, i, password)
    case ChangePassword(_, password) => ApplyChangePassword(o, d, password)
    case ApproveRequestOn(_, id, code, t) => ApplyApprove(o, d, id, code, t)
    case BeginRequest(_) => ApplyBegin(o, i)
    case SendStart(_, t) =>
      if !d.activity.Starting? || t in o.world.threads then o
      else
        var call := Start(d.user, d.vault, d.activity.receiver.id, d.activity.receiver.keyPair);
        WithActivity(o.(world := SharingService.Apply(o.world, Begin(t, call))), i, AwaitingStart(t))
    case FinishStart(_) => if d.activity.AwaitingStart? then ApplyFinishStart(o, i) else o
    case ForgetReceiver(_) => if d.activity.Resting? then WithDevice(o, i, d.(receiver := None)) else o
    case Receive(_, password) => ApplyReceive(o, i, password)
    case Fetch(_) => if d.activity.Receiving? then ApplyFetch(o, i) else o
    case Unlock(_) => if d.activity.Fetched? then ApplyUnlock(o, i) else o
    case Prepare(_) => if d.activity.Unlocked? then ApplyPrepare(o, i) else o
    case Persist(_) =>
      if d.activity.Prepared?
      then WithDevice(o, i, d.(receiver := Some(d.activity.receiver), activity := Persisted(d.activity.receiver))) else o
    case SendComplete(_, t) => if d.activity.Persisted? then ApplySend(o, i, t) else o
    case FinishReceive(_) => if d.activity.Awaiting? then ApplyFinishReceive(o, i) else o
    case Crash(_) => WithActivity(o, i, Resting)
  }

  function StepFleet(o: Fleet, step: FleetStep): Fleet {
    match step
    case Serve(s) =>
      if Unattended(s) then o.(world := SharingService.Apply(o.world, s), writers := WriterAfter(o, StatementOf(o.world, s))) else o
    case AddDevice(i, u, v) =>
      if i in o.devices || u == NO_ID || v == NO_ID then o else WithDevice(o, i, Device(u, v, None, None, Resting))
    case _ => if step.device in o.devices then StepOn(o, step) else o
  }

  function RunFleet(o: Fleet, steps: seq<FleetStep>): Fleet
    decreases |steps|
  {
    if steps == [] then o else RunFleet(StepFleet(o, steps[0]), steps[1..])
  }

  /** Organizations and accounts as given, no devices and no vaults; identifiers start above NO_ID. */
  function NewFleet(members: map<(OrgId, UserId), Role>, emails: map<UserId, Email>, now: int): Fleet {
    Fleet(SharingService.Initial(members, emails, now), map[], NO_ID + 1, map[], map[], map[])
  }
}
