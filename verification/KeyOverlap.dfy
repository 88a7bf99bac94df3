/** Several receives of one request on one device at the same time, each between its own reads and
    writes of the stored receiver. They agree with the server exactly as long as none is opened on a
    receiver without a wrapper while another is under way. */
module KeyOverlap {
  import opened Wrappers
  import opened VaultCrypto
  import opened SharingTables
  import opened SharingService
  import opened SharingCalls
  import opened KeyDelivery
  import opened KeyDeliverySafety
  import opened KeyReceipt
  import opened KeyHandover

  type AttemptId = nat

  /** A receive under way: with the receiver it read, or with one whose wrapper it holds, stored yet or
      not, or answered by the server. */
  datatype Attempt =
    | Opened(password: Password, receiver: Receiver)
    | Holding(receiver: Receiver, stored: bool)
    | Answered(ok: bool)

  /** One account's device and the server's tables; the transferred key, the clock and the sharing
      policy stay as they are. */
  datatype Scene = Scene(db: Db, user: UserId, vault: VaultId, request: RequestId, key: Bytes, now: int, revision: Revision,
                         secret: Option<Receiver>, attempts: map<AttemptId, Attempt>, nextId: nat)

  datatype Move =
    | Open(attempt: AttemptId, password: Password)
    | Seal(attempt: AttemptId)
    | Store(attempt: AttemptId)
    | Send(attempt: AttemptId)
    | Clear(attempt: AttemptId)
    | CrashAll

  function WithAttempt(s: Scene, a: AttemptId, attempt: Attempt): Scene {
    s.(attempts := s.attempts[a := attempt])
  }

  function ApplySeal(s: Scene, a: AttemptId, password: Password, r: Receiver): Scene {
    if r.prepared.Some? then WithAttempt(s, a, Holding(r, true))
    else
      match Wrap(password, s.key, Some(Binding(s.vault, s.user)), s.nextId, s.nextId + 1)
      case Ok(e) => WithAttempt(s.(nextId := s.nextId + 2), a, Holding(r.(prepared := Some(e)), false))
      case Err(_) => s.(attempts := s.attempts - {a})
  }

  function ApplySend(s: Scene, a: AttemptId, e: PasswordEnvelope): Scene {
    var (db, ok) := CompleteOutcome(s.db, s.user, s.vault, s.request, e, true, s.now, s.revision);
    WithAttempt(s.(db := db, revision := s.revision + 4), a, Answered(ok))
  }

  /** The password is one, and a receiver of the request is stored. */
  predicate MayOpen(s: Scene, a: AttemptId, password: Password) {
    a !in s.attempts && NormalizePassword(password).Ok? && s.secret.Some? && s.secret.value.id == s.request
  }

  function Apply(s: Scene, move: Move): Scene {
    match move
    case Open(a, password) =>
      if MayOpen(s, a, password) then WithAttempt(s, a, Opened(password, s.secret.value)) else s
    case Seal(a) =>
      if a in s.attempts && s.attempts[a].Opened? then ApplySeal(s, a, s.attempts[a].password, s.attempts[a].receiver) else s
    case Store(a) =>
      if a in s.attempts && s.attempts[a].Holding? && !s.attempts[a].stored
      then WithAttempt(s.(secret := Some(s.attempts[a].receiver)), a, Holding(s.attempts[a].receiver, true)) else s
    case Send(a) =>
      if a in s.attempts && s.attempts[a].Holding? && s.attempts[a].stored && s.attempts[a].receiver.prepared.Some?
      then ApplySend(s, a, s.attempts[a].receiver.prepared.value) else s
    case Clear(a) =>
      if a in s.attempts && s.attempts[a].Answered?
      then s.(secret := if s.attempts[a].ok then None else s.secret, attempts := s.attempts - {a}) else s
    case CrashAll => s.(attempts := map[])
  }

  function Run(s: Scene, moves: seq<Move>): Scene
    decreases |moves|
  {
    if moves == [] then s else Run(Apply(s, moves[0]), moves[1..])
  }

  predicate IsCompleted(s: Scene) {
    s.request in s.db.requests && s.db.requests[s.request].status.Completed?
  }

  /** A receiver still stored for the completed request prepared the wrapper the server holds, so that
      receiving again can succeed. */
  predicate Agrees(s: Scene) {
    IsCompleted(s) && s.secret.Some? ==>
      s.secret.value.prepared.Some? && PasswordWrapper(s.db, s.vault, s.user) == s.secret.value.prepared
  }

  // ------------------------------------------------------------ what is safe

  /** The server would still take an acceptable wrapper for the request. */
  predicate Completable(s: Scene) {
    && MayCall(s.db, s.user, s.vault, false, true) && OwnRequest(s.db, s.request, s.user, s.vault)
    && MayComplete(s.db, s.request, s.db.requests[s.request], s.now) && s.db.vaults[s.vault].keyVersion == KEY_VERSION
  }

  /** A receive is opened on a receiver without a wrapper while another receive is under way. */
  predicate Overlaps(s: Scene, a: AttemptId, password: Password) {
    MayOpen(s, a, password) && s.secret.value.prepared.None? && s.attempts != map[] && Completable(s)
  }

  predicate Safe(s: Scene, move: Move) {
    move.Open? ==> !Overlaps(s, move.attempt, move.password)
  }

  predicate SafeRun(s: Scene, moves: seq<Move>)
    decreases |moves|
  {
    moves == [] || (Safe(s, moves[0]) && SafeRun(Apply(s, moves[0]), moves[1..]))
  }

  // --------------------------------------------------------------- invariant

  /** What a receiver prepared, if anything, is a wrapper the server could take. */
  predicate Acceptable(s: Scene, r: Receiver) {
    r.prepared.Some? ==> AcceptableEnvelope(r.prepared.value, s.vault, s.user, KEY_VERSION)
  }

  predicate AttemptSound(s: Scene, attempt: Attempt) {
    match attempt
    case Opened(password, r) => NormalizePassword(password).Ok? && Acceptable(s, r)
    case Holding(r, _) => r.prepared.Some? && Acceptable(s, r) && r.prepared.value.nonce < s.nextId
    case Answered(_) => true
  }

  predicate SceneSound(s: Scene) {
    && |s.key| == VAULT_KEY_BYTES
    && (s.secret.Some? ==> Acceptable(s, s.secret.value))
    && (s.secret.Some? && s.secret.value.prepared.Some? ==> s.secret.value.prepared.value.nonce < s.nextId)
    && (forall a | a in s.attempts :: AttemptSound(s, s.attempts[a]))
    && (forall a | a in s.attempts && s.attempts[a].Opened? ::
          s.attempts[a].receiver.prepared.Some? ==> s.attempts[a].receiver.prepared.value.nonce < s.nextId)
  }

  /** The attempt has a wrapper of its own to store, now or once it is sealed. */
  predicate Unprepared(attempt: Attempt) {
    || (attempt.Opened? && attempt.receiver.prepared.None?)
    || (attempt.Holding? && !attempt.stored)
  }

  /** An attempt with a wrapper of its own to store is the only one; the others share the stored one. */
  predicate InStep(s: Scene) {
    forall a | a in s.attempts ::
      if Unprepared(s.attempts[a]) then s.attempts.Keys == {a} && s.secret.Some? && s.secret.value.prepared.None?
      else
        match s.attempts[a]
        case Opened(_, r) => s.secret.Some? ==> s.secret == Some(r)
        case Holding(r, _) => s.secret.Some? ==> s.secret == Some(r)
        case Answered(_) => s.secret.Some? ==> s.secret.value.prepared.Some?
  }

  /** Nothing that is sent completes the request any more. */
  predicate Stuck(s: Scene) {
    !IsCompleted(s) && !Completable(s)
  }

  predicate Inv(s: Scene) {
    SceneSound(s) && Agrees(s) && (InStep(s) || Stuck(s))
  }

  lemma SealIsAcceptable(s: Scene, password: Password)
    requires |s.key| == VAULT_KEY_BYTES && NormalizePassword(password).Ok?
    ensures var e := Wrap(password, s.key, Some(Binding(s.vault, s.user)), s.nextId, s.nextId + 1);
            e.Ok? && AcceptableEnvelope(e.value, s.vault, s.user, KEY_VERSION) && e.value.nonce == s.nextId + 1
  {
  }

  lemma SealKeepsInv(s: Scene, a: AttemptId)
    requires Inv(s)
    ensures Inv(Apply(s, Seal(a)))
  {
    if a in s.attempts && s.attempts[a].Opened? {
      assert AttemptSound(s, s.attempts[a]);
      SealIsAcceptable(s, s.attempts[a].password);
    }
    hide Wrap, NormalizePassword, AcceptableEnvelope, Completable, PasswordWrapper, CompleteOutcome;
  }

  /** A completion either changes nothing or completes the request with the wrapper sent. */
  lemma SendOutcome(s: Scene, e: PasswordEnvelope)
    requires AcceptableEnvelope(e, s.vault, s.user, KEY_VERSION)
    ensures var (db, ok) := CompleteOutcome(s.db, s.user, s.vault, s.request, e, true, s.now, s.revision);
            || db == s.db
            || (Completable(s) && Agreed(db, s.user, s.vault, s.request, e))
  {
    CompleteMeans(s.db, s.user, s.vault, s.request, e, true, s.now, s.revision, s.now, s.revision);
    hide LiveVault, EnrollmentStatus, IsVaultManager, CompleteOutcome, Agreed;
  }

  lemma SendKeepsInv(s: Scene, a: AttemptId)
    requires Inv(s)
    ensures Inv(Apply(s, Send(a)))
  {
    if a in s.attempts && s.attempts[a].Holding? && s.attempts[a].stored {
      assert AttemptSound(s, s.attempts[a]);
      var e := s.attempts[a].receiver.prepared.value;
      SendOutcome(s, e);
      AgreedIsTheWrapper(CompleteOutcome(s.db, s.user, s.vault, s.request, e, true, s.now, s.revision).0, s, e);
    }
    hide AcceptableEnvelope, MayCall, MayComplete, OwnRequest, PasswordWrapper, CompleteOutcome, NormalizePassword;
  }

  lemma AgreedIsTheWrapper(db: Db, s: Scene, e: PasswordEnvelope)
    ensures Agreed(db, s.user, s.vault, s.request, e) ==> PasswordWrapper(db, s.vault, s.user) == Some(e)
  {
  }

  lemma MoveKeepsInv(s: Scene, move: Move)
    requires Inv(s) && Safe(s, move)
    ensures Inv(Apply(s, move))
  {
    hide CompleteOutcome, Wrap, PasswordWrapper, NormalizePassword, AcceptableEnvelope, MayCall, MayComplete;
    match move
    case Seal(a) => SealKeepsInv(s, a);
    case Send(a) => SendKeepsInv(s, a);
    case _ =>
  }

  lemma {:induction false} SafeRunKeepsInv(s: Scene, moves: seq<Move>)
    requires Inv(s) && SafeRun(s, moves)
    ensures Inv(Run(s, moves))
    decreases |moves|
  {
    hide Apply, Inv, Safe;
    if moves != [] {
      MoveKeepsInv(s, moves[0]);
      SafeRunKeepsInv(Apply(s, moves[0]), moves[1..]);
    }
  }

  // ------------------------------------------------------------ two that part

  /** Both attempts seal a wrapper of their own; the earlier one stores and sends its, the later one
      stores over it. */
  function Crossing(a: AttemptId, b: AttemptId): seq<Move> {
    [Seal(a), Seal(b), Store(b), Send(b), Store(a)]
  }

  /** The request is completed with one wrapper, the device has stored another, and the server refuses
      that one for ever. */
  ghost predicate Parted(s: Scene) {
    && !Agrees(s) && IsCompleted(s) && s.secret.Some? && s.secret.value.prepared.Some?
    && forall now, revision ::
         CompleteOutcome(s.db, s.user, s.vault, s.request, s.secret.value.prepared.value, true, now, revision) == (s.db, false)
  }

  lemma FirstCompletes(s: Scene, e: PasswordEnvelope)
    requires Completable(s) && AcceptableEnvelope(e, s.vault, s.user, KEY_VERSION)
    ensures var (db, ok) := CompleteOutcome(s.db, s.user, s.vault, s.request, e, true, s.now, s.revision);
            && ok && Agreed(db, s.user, s.vault, s.request, e)
            && forall other, now, revision | other != e ::
                 CompleteOutcome(db, s.user, s.vault, s.request, other, true, now, revision) == (db, false)
  {
    CompleteMeans(s.db, s.user, s.vault, s.request, e, true, s.now, s.revision, s.now, s.revision);
    assert !s.db.requests[s.request].status.Completed?;
    hide MayCall, AcceptableEnvelope, CompleteOutcome, MayComplete, PasswordWrapper;
    var db := CompleteOutcome(s.db, s.user, s.vault, s.request, e, true, s.now, s.revision).0;
    forall other, now, revision | other != e
      ensures CompleteOutcome(db, s.user, s.vault, s.request, other, true, now, revision) == (db, false)
    {
      CompleteMeans(db, s.user, s.vault, s.request, other, true, now, revision, now, revision);
    }
  }

  /** The scene up to the attempts, the stored receiver and the fresh numbers. */
  predicate SameServer(s: Scene, next: Scene) {
    next == s.(secret := next.secret, attempts := next.attempts, nextId := next.nextId)
  }

  /** Both attempts hold a wrapper of their own and the earlier one has stored its. */
  predicate Crossed(s: Scene, a: AttemptId, b: AttemptId, ea: PasswordEnvelope, eb: PasswordEnvelope) {
    && a != b && ea != eb && AcceptableEnvelope(eb, s.vault, s.user, KEY_VERSION)
    && a in s.attempts && s.attempts[a].Holding? && !s.attempts[a].stored && s.attempts[a].receiver.prepared == Some(ea)
    && b in s.attempts && s.attempts[b].Holding? && s.attempts[b].stored && s.attempts[b].receiver.prepared == Some(eb)
  }

  lemma SealedApart(s: Scene, a: AttemptId, b: AttemptId, password: Password) returns (ea: PasswordEnvelope, eb: PasswordEnvelope)
    requires SceneSound(s) && MayOpen(s, a, password) && s.secret.value.prepared.None? && b in s.attempts
    requires Unprepared(s.attempts[b])
    ensures var reading := Apply(s, Open(a, password));
            var crossed := Apply(Apply(Apply(reading, Seal(a)), Seal(b)), Store(b));
            SameServer(s, crossed) && Crossed(crossed, a, b, ea, eb)
  {
    var reading := Apply(s, Open(a, password));
    SealIsAcceptable(reading, password);
    ea := Wrap(password, s.key, Some(Binding(s.vault, s.user)), s.nextId, s.nextId + 1).value;
    var sealed := Apply(reading, Seal(a));
    assert AttemptSound(s, s.attempts[b]);
    if s.attempts[b].Opened? {
      SealIsAcceptable(sealed, s.attempts[b].password);
      eb := Wrap(s.attempts[b].password, s.key, Some(Binding(s.vault, s.user)), s.nextId + 2, s.nextId + 3).value;
    } else {
      eb := s.attempts[b].receiver.prepared.value;
    }
    hide Wrap, NormalizePassword, AcceptableEnvelope, CompleteOutcome;
    assert sealed.attempts[a] == Holding(s.secret.value.(prepared := Some(ea)), false) && sealed.nextId == s.nextId + 2;
    assert sealed.attempts[b] == s.attempts[b];
    var both := Apply(sealed, Seal(b));
    assert both.attempts[b].Holding? && !both.attempts[b].stored && both.attempts[b].receiver.prepared == Some(eb);
  }

  lemma CrossedParts(s: Scene, a: AttemptId, b: AttemptId, ea: PasswordEnvelope, eb: PasswordEnvelope)
    requires Completable(s) && Crossed(s, a, b, ea, eb)
    ensures Parted(Apply(Apply(s, Send(b)), Store(a)))
  {
    FirstCompletes(s, eb);
    hide CompleteOutcome, Wrap, AcceptableEnvelope, Completable, NormalizePassword;
  }

  lemma SameServerCompletes(s: Scene, next: Scene)
    requires Completable(s) && SameServer(s, next)
    ensures Completable(next)
  {
    hide MayCall, MayComplete;
  }

  lemma CrossingRuns(s: Scene, a: AttemptId, b: AttemptId)
    ensures Run(s, Crossing(a, b)) == Apply(Apply(Apply(Apply(Apply(s, Seal(a)), Seal(b)), Store(b)), Send(b)), Store(a))
    ensures SafeRun(s, Crossing(a, b))
  {
    hide Apply;
    var moves := Crossing(a, b);
    assert moves[1..][1..] == moves[2..] && moves[2..][1..] == moves[3..] && moves[3..][1..] == moves[4..] && moves[4..][1..] == [];
    var s1 := Apply(s, moves[0]);
    var s2 := Apply(s1, moves[1]);
    assert Run(s, moves) == Run(s2, moves[2..]);
    var s3 := Apply(s2, moves[2]);
    var s4 := Apply(s3, moves[3]);
    assert Run(s2, moves[2..]) == Run(s4, moves[4..]);
    assert Run(s4, moves[4..]) == Apply(s4, moves[4]) && SafeRun(s4, moves[4..]);
    assert SafeRun(s2, moves[2..]);
  }

  /** Whoever overlaps can part: whichever attempt is under way when another is opened on the receiver
      without a wrapper, whether it has only read that receiver or has sealed a wrapper already. */
  lemma OverlappingReceivesPart(s: Scene, a: AttemptId, b: AttemptId, password: Password)
    requires Inv(s) && Overlaps(s, a, password) && b in s.attempts
    ensures var reading := Apply(s, Open(a, password));
            SafeRun(reading, Crossing(a, b)) && Parted(Run(reading, Crossing(a, b)))
  {
    OthersAreUnprepared(s, a, b, password);
    hide Inv, Apply, Completable, Parted, CompleteOutcome, Crossing, SceneSound;
    var reading := Apply(s, Open(a, password));
    CrossingRuns(reading, a, b);
    var ea, eb := SealedApart(s, a, b, password);
    var crossed := Apply(Apply(Apply(reading, Seal(a)), Seal(b)), Store(b));
    SameServerCompletes(s, crossed);
    CrossedParts(crossed, a, b, ea, eb);
  }

  lemma OthersAreUnprepared(s: Scene, a: AttemptId, b: AttemptId, password: Password)
    requires Inv(s) && Overlaps(s, a, password) && b in s.attempts
    ensures SceneSound(s) && MayOpen(s, a, password) && s.secret.value.prepared.None? && Completable(s)
    ensures Unprepared(s.attempts[b])
  {
    hide Completable, NormalizePassword, PasswordWrapper;
    assert AttemptSound(s, s.attempts[b]);
  }

  // ----------------------------------------------------------------- theorem

  /** A sound scene with no receive under way, in which the device and the server agree. */
  predicate Calm(s: Scene) {
    SceneSound(s) && Agrees(s) && s.attempts == map[]
  }

  /** However receives go on from here, as long as none overlaps, the device and the server agree. */
  ghost predicate AgreesForEver(s: Scene) {
    forall moves | SafeRun(s, moves) :: Agrees(Run(s, moves))
  }

  /** Receives of one request agree with the server exactly as long as none overlaps. In every scene
      reached without an overlap, with any number of receives, crashes and retries, device and server
      agree; and opening one more receive there leaves them in agreement for ever if and only if it does
      not overlap. If it does, they can part for good. */
  lemma ReceivesAgreeExactly(start: Scene, moves: seq<Move>, a: AttemptId, password: Password)
    requires Calm(start) && SafeRun(start, moves)
    ensures var s := Run(start, moves);
            var reading := Apply(s, Open(a, password));
            && Agrees(s)
            && (AgreesForEver(reading) <==> !Overlaps(s, a, password))
            && (Overlaps(s, a, password) ==>
                  forall b | b in s.attempts :: Parted(Run(reading, Crossing(a, b))))
  {
    assert Inv(start);
    SafeRunKeepsInv(start, moves);
    var s := Run(start, moves);
    var reading := Apply(s, Open(a, password));
    hide Apply, Completable, PasswordWrapper, SceneSound, InStep, CompleteOutcome, Crossing, MayOpen, Stuck;
    if Overlaps(s, a, password) {
      forall b | b in s.attempts
        ensures SafeRun(reading, Crossing(a, b)) && Parted(Run(reading, Crossing(a, b)))
      {
        OverlappingReceivesPart(s, a, b, password);
      }
      var b :| b in s.attempts;
      assert !Agrees(Run(reading, Crossing(a, b)));
    } else {
      MoveKeepsInv(s, Open(a, password));
      forall later | SafeRun(reading, later)
        ensures Agrees(Run(reading, later))
      {
        SafeRunKeepsInv(reading, later);
      }
    }
  }

  // ------------------------------------------------- the scene in a fleet

  /** The scene of a device about to receive. */
  function SceneOf(o: Fleet, i: DeviceId): Scene
    requires i in o.devices && o.devices[i].receiver.Some? && o.devices[i].vault in o.vaultKeys
  {
    var d := o.devices[i];
    Scene(o.world.db, d.user, d.vault, d.receiver.value.id, o.vaultKeys[d.vault], o.world.now, o.world.nextRevision, d.receiver,
          map[], o.nextId)
  }

  /** From every state of the fleet in which a device can receive an approved request it has prepared
      nothing for, two receives opened together can part from the server for good. */
  lemma ReadyDeviceCanPart(o: Fleet, i: DeviceId, first: Password, second: Password)
    requires FleetInv(o) && ReceiveReady(o, i, first) && o.devices[i].receiver.value.prepared.None?
    requires NormalizePassword(second).Ok?
    ensures o.devices[i].vault in o.vaultKeys
    ensures var r := o.devices[i].receiver.value;
            var row := o.world.db.requests[r.id];
            row.envelope.Some? && DecryptTransferred(row.envelope.value, r.keyPair, ContextOf(r.id, row)) == Ok(SceneOf(o, i).key)
    ensures var scene := SceneOf(o, i);
            var reading := Apply(scene, Open(1, first));
            && Calm(scene) && SafeRun(scene, [Open(1, first)]) && Overlaps(reading, 2, second)
            && Parted(Run(scene, [Open(1, first), Open(2, second)] + Crossing(2, 1)))
  {
    ReadyIsCompletable(o, i, first);
    TransferUnlocks(o, i);
    hide FleetInv, DecryptTransferred;
    var scene := SceneOf(o, i);
    assert Calm(scene) by { ReadyIsCalm(o, i, first); }
    OpensTwice(scene, first, second);
  }

  lemma ReadyIsCompletable(o: Fleet, i: DeviceId, password: Password)
    requires FleetInv(o) && ReceiveReady(o, i, password)
    ensures o.devices[i].vault in o.vaultKeys && |o.vaultKeys[o.devices[i].vault]| == VAULT_KEY_BYTES
    ensures Completable(SceneOf(o, i))
  {
    TransferUnlocks(o, i);
    hide FleetInv, DecryptTransferred;
  }

  lemma ReadyIsCalm(o: Fleet, i: DeviceId, password: Password)
    requires FleetInv(o) && ReceiveReady(o, i, password) && o.devices[i].receiver.value.prepared.None?
    requires o.devices[i].vault in o.vaultKeys && |o.vaultKeys[o.devices[i].vault]| == VAULT_KEY_BYTES
    ensures Calm(SceneOf(o, i))
  {
    hide FleetInv, PasswordWrapper;
  }

  lemma OpensTwice(s: Scene, first: Password, second: Password)
    requires Calm(s) && Completable(s) && s.secret.Some? && s.secret.value.id == s.request && s.secret.value.prepared.None?
    requires NormalizePassword(first).Ok? && NormalizePassword(second).Ok?
    ensures var reading := Apply(s, Open(1, first));
            && SafeRun(s, [Open(1, first)]) && Overlaps(reading, 2, second)
            && Parted(Run(s, [Open(1, first), Open(2, second)] + Crossing(2, 1)))
  {
    hide Crossing, Parted, NormalizePassword, PasswordWrapper, CompleteOutcome, MayCall, MayComplete;
    var reading := Apply(s, Open(1, first));
    assert Safe(s, Open(1, first));
    MoveKeepsInv(s, Open(1, first));
    assert Overlaps(reading, 2, second);
    OverlappingReceivesPart(reading, 2, 1, second);
    var moves := [Open(1, first), Open(2, second)] + Crossing(2, 1);
    assert moves[1..][1..] == Crossing(2, 1);
    hide Apply;
    assert Run(reading, moves[1..]) == Run(Apply(reading, Open(2, second)), Crossing(2, 1));
    assert SafeRun(reading, []);
  }

  /** Such a state is reached by every handover: once the manager has approved, two receives opened on
      the member's device overlap and can part. */
  lemma OverlapIsReached(members: map<(OrgId, UserId), Role>, emails: map<UserId, Email>, now: int, steps: seq<FleetStep>,
                         i: DeviceId, j: DeviceId, first: Password, second: Password, asks: ThreadId, approves: ThreadId)
    requires var o := RunFleet(NewFleet(members, emails, now), steps);
             Ready(o, i, j, first) && asks !in o.world.threads && approves !in o.world.threads && asks != approves
    requires NormalizePassword(second).Ok?
    ensures var o := RunFleet(NewFleet(members, emails, now), steps);
            && o.nextId in Asked(o, i, asks).world.db.requests
            && var granted := Granted(Asked(o, i, asks), j, o.nextId, approves);
               && i in granted.devices && granted.devices[i].receiver.Some? && granted.devices[i].vault in granted.vaultKeys
               && Overlaps(Apply(SceneOf(granted, i), Open(1, first)), 2, second)
               && Parted(Run(SceneOf(granted, i), [Open(1, first), Open(2, second)] + Crossing(2, 1)))
  {
    var o := RunFleet(NewFleet(members, emails, now), steps);
    ReachedFleet(members, emails, now, steps);
    hide RunFleet, NewFleet, FleetInv, Ready, Asked, Granted, ReceiveReady, Leads, Overlaps, Parted, Crossing, Run, Apply;
    GrantedIsReceivable(o, i, j, first, asks, approves);
    var granted := Granted(Asked(o, i, asks), j, o.nextId, approves);
    LeadsIsSound(o, granted);
    ReadyMayReceive(granted, i, first);
    ReadyDeviceCanPart(granted, i, first, second);
  }

  lemma ReadyMayReceive(o: Fleet, i: DeviceId, password: Password)
    requires ReceiveReady(o, i, password)
    ensures i in o.devices && o.devices[i].receiver.Some?
  {
  }
}
