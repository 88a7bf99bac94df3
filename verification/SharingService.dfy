/** The sharing service: every call is a thread that reads and writes the tables one statement at a
    time, and the threads interleave with each other, with administration and with time. */
module SharingService {
  import opened Wrappers
  import opened VaultCrypto
  import opened SharingTables

  type ThreadId = nat

  /** One statement or atomic batch. `stamp` is history only: how often the user had been removed
      when the access version of the row was read. */
  datatype Statement =
    | InsertInvitation(id: InvitationId, org: OrgId, email: Email, role: Role, inviter: UserId, memberLimit: nat)
    | UpdateInvitation(id: InvitationId, status: InvitationStatus)
    | Accept(id: InvitationId, invite: Invitation, user: UserId)
    | Claim(id: InvitationId, org: OrgId)
    | Enroll(vault: VaultId, user: UserId)
    | UpdateRole(org: OrgId, user: UserId, role: Role)
    | Remove(org: OrgId, user: UserId)
    | InsertRequest(request: RequestId, row: KeyRequest, stamp: nat)
    | ApproveRequest(request: RequestId, user: UserId, transfer: TransferEnvelope)
    | CompleteRequest(request: RequestId, row: KeyRequest, envelope: PasswordEnvelope)
    | ReplaceWrapper(vault: VaultId, user: UserId, envelope: PasswordEnvelope)
    | Prune
    | Queue(vault: VaultId)
    | Finish(vault: VaultId, revision: Revision)
    | InsertVault(vault: VaultId, org: OrgId, user: UserId, envelope: PasswordEnvelope, maxVaults: nat)
    | MarkDeleted(vault: VaultId)
    | Restore(vault: VaultId)

  datatype Call =
    | Start(user: UserId, vault: VaultId, request: RequestId, publicKey: KeyPairId)
    | Approve(user: UserId, vault: VaultId, request: RequestId, transfer: TransferEnvelope)
    | Complete(user: UserId, vault: VaultId, request: RequestId, envelope: PasswordEnvelope)
    | Invite(user: UserId, org: OrgId, email: Email, role: Role, memberLimit: nat)
    | Respond(user: UserId, email: Email, invitation: InvitationId, accept: bool)
    | ChangeMember(user: UserId, org: OrgId, target: UserId, newRole: Option<Role>)

  datatype Pc =
    | VaultRead | MemberRead | GrantRead | SharingCheck | Enrolling | VaultReread | MemberReread | GrantReread
    | RequestRead | WrapperRead | ActorRead | TargetRead | InvitationRead | InviterRead | Write | Refreshing | Done | Failed

  /** A call under way: where it is and what it has read so far. */
  datatype Thread = Thread(call: Call, pc: Pc, vaultRow: Option<Vault>, grant: Option<Grant>, stamp: nat,
                           row: Option<KeyRequest>, role: Option<Role>, invite: Option<Invitation>)

  /** The tables, the clock and the calls under way, with three histories: removals of a user from a
      vault, the removal count each request's version was read at, and the one of the request that
      last activated a grant. */
  datatype World = World(db: Db, now: int, nextRevision: Revision, threads: map<ThreadId, Thread>,
                         removals: map<(VaultId, UserId), nat>, stamps: map<RequestId, nat>,
                         activations: map<(VaultId, UserId), nat>)

  datatype Step =
    | Tick(ms: nat)
    | Begin(thread: ThreadId, call: Call)
    | Advance(thread: ThreadId, sharingEnabled: bool, freshId: InvitationId)
    | Administer(statement: Statement)

  function Removals(w: World, v: VaultId, u: UserId): nat {
    if (v, u) in w.removals then w.removals[(v, u)] else 0
  }

  function Stamp(w: World, r: RequestId): nat {
    if r in w.stamps then w.stamps[r] else 0
  }

  function Activation(w: World, v: VaultId, u: UserId): nat {
    if (v, u) in w.activations then w.activations[(v, u)] else 0
  }

  function CountRemoval(w: World, vaults: set<VaultId>, u: UserId): map<(VaultId, UserId), nat> {
    map k | k in w.removals.Keys + (set v | v in vaults :: (v, u)) ::
      Removals(w, k.0, k.1) + if k.0 in vaults && k.1 == u then 1 else 0
  }

  // -------------------------------------------------------------- statements

  /** The tables after a statement, and whether it changed the row it was for. */
  function Execute(db: Db, s: Statement, now: int, revision: Revision): (Db, bool) {
    match s
    case InsertInvitation(id, org, email, role, inviter, limit) => CreateInvitation(db, id, org, email, role, inviter, limit, now)
    case UpdateInvitation(id, status) => (SetInvitationStatus(db, id, status), true)
    case Accept(id, invite, user) => AcceptInvitation(db, id, invite, user, now, revision, revision + 1)
    case Claim(id, org) => ClaimDelivery(db, id, org, now)
    case Enroll(v, u) => (EnsureEnrollment(db, v, u), true)
    case UpdateRole(org, u, role) => (ChangeRole(db, org, u, role), true)
    case Remove(org, u) => (RemoveMember(db, org, u, now, revision, revision + 1), true)
    case InsertRequest(id, row, _) => CreateKeyRequest(db, id, row)
    case ApproveRequest(id, user, transfer) => ApproveKeyRequest(db, id, user, transfer, now)
    case CompleteRequest(id, row, envelope) => CompleteKeyRequest(db, id, row, envelope, now)
    case ReplaceWrapper(v, u, envelope) => UpsertPasswordWrapper(db, u, v, envelope)
    case Prune => (PruneExpired(db, now), true)
    case Queue(v) => (QueueRefresh(db, v, revision), true)
    case Finish(v, finished) => (FinishRefresh(db, v, finished), true)
    case InsertVault(v, org, u, envelope, maxVaults) => CreateVault(db, v, org, u, envelope, maxVaults, now)
    case MarkDeleted(v) => (if LiveVault(db, v) then SetDeleted(db, v, Some(now)) else db, true)
    case Restore(v) => (SetDeleted(db, v, None), true)
  }

  /** Executes a statement and keeps the histories; revisions are drawn afresh. */
  function Exec(w: World, s: Statement): (World, bool) {
    var (db, ok) := Execute(w.db, s, w.now, w.nextRevision);
    var next := w.(db := db, nextRevision := w.nextRevision + 2);
    (match s
     case Remove(org, u) => next.(removals := CountRemoval(w, VaultIdsOf(w.db.vaults, org), u))
     case InsertRequest(id, _, stamp) => if ok then next.(stamps := w.stamps[id := stamp]) else next
     case CompleteRequest(id, row, _) =>
       if ok then next.(activations := w.activations[(row.vault, row.user) := Stamp(w, id)]) else next
     case InsertVault(v, _, u, _, _) => if ok then next.(activations := w.activations[(v, u) := Removals(w, v, u)]) else next
     case _ => next,
     ok)
  }

  // ----------------------------------------------------------------- threads

  /** What a thread does next: perhaps one statement, and where it goes if that succeeds or fails. */
  datatype Action = Action(statement: Option<Statement>, onSuccess: Thread, onFailure: Thread)

  function Go(th: Thread): Action {
    Action(None, th, th)
  }

  function Fail(th: Thread): Action {
    Go(th.(pc := Failed))
  }

  function ReadVault(db: Db, th: Thread, v: VaultId, next: Pc): (a: Action)
    ensures a == Go(th.(vaultRow := a.onSuccess.vaultRow, pc := a.onSuccess.pc))
    ensures a.onSuccess.pc == next || a.onSuccess.pc == Failed
  {
    if LiveVault(db, v) then Go(th.(vaultRow := Some(db.vaults[v]), pc := next)) else Fail(th)
  }

  function ReadMember(db: Db, th: Thread, u: UserId, manage: bool, next: Pc): (a: Action)
    requires th.vaultRow.Some?
    ensures a == Go(th.(pc := a.onSuccess.pc)) && (a.onSuccess.pc == next || a.onSuccess.pc == Failed)
  {
    var k := (th.vaultRow.value.org, u);
    if k in db.members && (manage ==> IsManager(db.members[k])) then Go(th.(pc := next)) else Fail(th)
  }

  function ReadGrant(w: World, th: Thread, v: VaultId, u: UserId, pending: bool, next: Pc): Action {
    var grant := GrantOf(w.db, v, u);
    var status := EnrollmentStatus(grant);
    if status.Active? || (pending && status.PendingKey?)
    then Go(th.(grant := grant, stamp := Removals(w, v, u), pc := next)) else Fail(th)
  }

  function NewRequest(th: Thread, now: int): KeyRequest
    requires th.call.Start?
  {
    KeyRequest(th.call.vault, th.call.user, if th.grant.Some? then th.grant.value.accessVersion else 0, th.call.publicKey,
               if EnrollmentStatus(th.grant).PendingKey? then Enrollment else Recovery, Pending, None, None, now,
               now + REQUEST_LIFETIME_MS)
  }

  function NextOfStart(w: World, th: Thread, enabled: bool): Action
    requires th.call.Start?
  {
    var c := th.call;
    match th.pc
    case VaultRead => ReadVault(w.db, th, c.vault, MemberRead)
    case MemberRead => if th.vaultRow.None? then Fail(th) else ReadMember(w.db, th, c.user, false, GrantRead)
    case GrantRead => ReadGrant(w, th, c.vault, c.user, true, SharingCheck)
    case SharingCheck => if enabled then Go(th.(pc := Enrolling)) else Fail(th)
    case Enrolling => Action(Some(Enroll(c.vault, c.user)), th.(pc := VaultReread), th.(pc := Failed))
    case VaultReread => ReadVault(w.db, th, c.vault, MemberReread)
    case MemberReread => if th.vaultRow.None? then Fail(th) else ReadMember(w.db, th, c.user, false, GrantReread)
    case GrantReread => ReadGrant(w, th, c.vault, c.user, true, RequestRead)
    case RequestRead =>
      if c.request !in w.db.requests then Go(th.(pc := Write))
      else
        var existing := w.db.requests[c.request];
        if existing.user == c.user && existing.vault == c.vault && existing.publicKey == c.publicKey
        then Go(th.(row := Some(existing), pc := Done)) else Fail(th)
    case Write =>
      var row := NewRequest(th, w.now);
      Action(Some(InsertRequest(c.request, row, th.stamp)), th.(row := Some(row), pc := Done), th.(pc := Failed))
    case _ => Go(th)
  }

  function NextOfApprove(w: World, th: Thread, enabled: bool): Action
    requires th.call.Approve?
  {
    var c := th.call;
    match th.pc
    case VaultRead => ReadVault(w.db, th, c.vault, MemberRead)
    case MemberRead => if th.vaultRow.None? then Fail(th) else ReadMember(w.db, th, c.user, true, GrantRead)
    case GrantRead => ReadGrant(w, th, c.vault, c.user, false, SharingCheck)
    case SharingCheck => if enabled then Go(th.(pc := RequestRead)) else Fail(th)
    case RequestRead =>
      if c.request in w.db.requests && w.db.requests[c.request].vault == c.vault && w.db.requests[c.request].user != c.user
      then Go(th.(row := Some(w.db.requests[c.request]), pc := VaultReread)) else Fail(th)
    case VaultReread => ReadVault(w.db, th, c.vault, MemberReread)
    case MemberReread =>
      if th.vaultRow.None? || th.row.None? then Fail(th) else ReadMember(w.db, th, th.row.value.user, false, GrantReread)
    case GrantReread => if th.row.None? then Fail(th) else ReadGrant(w, th, c.vault, th.row.value.user, true, Write)
    case Write => Action(Some(ApproveRequest(c.request, c.user, c.transfer)), th.(pc := Done), th.(pc := Failed))
    case _ => Go(th)
  }

  predicate AcceptableEnvelope(e: PasswordEnvelope, v: VaultId, u: UserId, keyVersion: int) {
    e.version == 2 && e.binding == Some(Binding(v, u)) && e.keyVersion == keyVersion
  }

  function NextOfComplete(w: World, th: Thread, enabled: bool): Action
    requires th.call.Complete?
  {
    var c := th.call;
    match th.pc
    case VaultRead => ReadVault(w.db, th, c.vault, MemberRead)
    case MemberRead => if th.vaultRow.None? then Fail(th) else ReadMember(w.db, th, c.user, false, GrantRead)
    case GrantRead => ReadGrant(w, th, c.vault, c.user, true, SharingCheck)
    case SharingCheck => if enabled then Go(th.(pc := RequestRead)) else Fail(th)
    case RequestRead =>
      if || th.vaultRow.None? || c.request !in w.db.requests
         || w.db.requests[c.request].user != c.user || w.db.requests[c.request].vault != c.vault then Fail(th)
      else if w.db.requests[c.request].status.Completed? then Go(th.(pc := WrapperRead))
      else if AcceptableEnvelope(c.envelope, c.vault, c.user, th.vaultRow.value.keyVersion)
      then Go(th.(row := Some(w.db.requests[c.request]), pc := Write)) else Fail(th)
    case WrapperRead => if PasswordWrapper(w.db, c.vault, c.user) == Some(c.envelope) then Go(th.(pc := Done)) else Fail(th)
    case Write =>
      if th.row.None? then Fail(th)
      else Action(Some(CompleteRequest(c.request, th.row.value, c.envelope)), th.(pc := Refreshing), th.(pc := Failed))
    case Refreshing => Action(Some(Queue(c.vault)), th.(pc := Done), th.(pc := Failed))
    case _ => Go(th)
  }

  function Trim(s: string): string {
    if s != "" && IsSpace(s[0]) then Trim(s[1..])
    else if s != "" && IsSpace(s[|s| - 1]) then Trim(s[..|s| - 1])
    else s
  }

  function NextOfInvite(w: World, th: Thread, enabled: bool, freshId: InvitationId): Action
    requires th.call.Invite?
  {
    var c := th.call;
    match th.pc
    case ActorRead =>
      if || (c.org, c.user) !in w.db.members || !IsManager(w.db.members[(c.org, c.user)]) || c.role.Owner?
         || (c.role.Admin? && !w.db.members[(c.org, c.user)].Owner?) then Fail(th)
      else Go(th.(pc := SharingCheck))
    case SharingCheck => if enabled then Go(th.(pc := Write)) else Fail(th)
    case Write =>
      Action(Some(InsertInvitation(freshId, c.org, Lower(Trim(c.email)), c.role, c.user, c.memberLimit)),
             th.(pc := Done), th.(pc := Failed))
    case _ => Go(th)
  }

  function NextOfRespond(w: World, th: Thread, enabled: bool): Action
    requires th.call.Respond?
  {
    var c := th.call;
    match th.pc
    case InvitationRead =>
      if c.invitation !in w.db.invitations then Fail(th)
      else
        var invite := w.db.invitations[c.invitation];
        if Lower(invite.email) != Lower(c.email) then Fail(th)
        else if invite.status.Accepted? then Go(th.(pc := Done))
        else if !LiveInvitation(w.db, c.invitation, w.now) then Fail(th)
        else Go(th.(invite := Some(invite), pc := if c.accept then SharingCheck else Write))
    case SharingCheck => if enabled then Go(th.(pc := InviterRead)) else Fail(th)
    case InviterRead =>
      if th.invite.None? then Fail(th)
      else
        var k := (th.invite.value.org, th.invite.value.inviter);
        if k !in w.db.members || !IsManager(w.db.members[k]) || (th.invite.value.role.Admin? && !w.db.members[k].Owner?)
        then Fail(th) else Go(th.(pc := Write))
    case Write =>
      if th.invite.None? then Fail(th)
      else Action(Some(if c.accept then Accept(c.invitation, th.invite.value, c.user) else UpdateInvitation(c.invitation, Rejected)),
                  th.(pc := Done), th.(pc := Failed))
    case _ => Go(th)
  }

  function NextOfChange(w: World, th: Thread): Action
    requires th.call.ChangeMember?
  {
    var c := th.call;
    match th.pc
    case ActorRead =>
      if (c.org, c.user) in w.db.members then Go(th.(role := Some(w.db.members[(c.org, c.user)]), pc := TargetRead)) else Fail(th)
    case TargetRead =>
      if th.role.None? then Fail(th)
      else if (c.org, c.target) !in w.db.members then (if c.newRole.None? then Go(th.(pc := Done)) else Fail(th))
      else
        var target := w.db.members[(c.org, c.target)];
        if target.Owner? then Fail(th)
        else if c.newRole.Some? && (c.newRole.value.Owner? || !th.role.value.Owner?) then Fail(th)
        else if c.newRole.None? && c.user != c.target
                && (!IsManager(th.role.value) || (target.Admin? && !th.role.value.Owner?)) then Fail(th)
        else Go(th.(pc := Write))
    case Write =>
      Action(Some(if c.newRole.Some? then UpdateRole(c.org, c.target, c.newRole.value) else Remove(c.org, c.target)),
             th.(pc := Done), th.(pc := Failed))
    case _ => Go(th)
  }

  function Next(w: World, th: Thread, enabled: bool, freshId: InvitationId): Action {
    match th.call
    case Start(_, _, _, _) => NextOfStart(w, th, enabled)
    case Approve(_, _, _, _) => NextOfApprove(w, th, enabled)
    case Complete(_, _, _, _) => NextOfComplete(w, th, enabled)
    case Invite(_, _, _, _, _) => NextOfInvite(w, th, enabled, freshId)
    case Respond(_, _, _, _) => NextOfRespond(w, th, enabled)
    case ChangeMember(_, _, _, _) => NextOfChange(w, th)
  }

  function NewThread(call: Call): Thread {
    var pc := match call
      case Start(_, _, _, _) => VaultRead
      case Approve(_, _, _, _) => VaultRead
      case Complete(_, _, _, _) => VaultRead
      case Invite(_, _, _, _, _) => ActorRead
      case Respond(_, _, _, _) => InvitationRead
      case ChangeMember(_, _, _, _) => ActorRead;
    Thread(call, pc, None, None, 0, None, None, None)
  }

  function Act(w: World, t: ThreadId, action: Action): World {
    match action.statement
    case None => w.(threads := w.threads[t := action.onSuccess])
    case Some(s) =>
      var (next, ok) := Exec(w, s);
      next.(threads := next.threads[t := if ok then action.onSuccess else action.onFailure])
  }

  /** Statements that run on their own: cancellations, deliveries, password changes, pruning, outbox
      completion and the life of vaults. The rest runs only inside a call. */
  predicate Administrative(s: Statement) {
    || (s.UpdateInvitation? && s.status.Withdrawn?) || s.Claim? || s.ReplaceWrapper? || s.Prune? || s.Queue? || s.Finish?
    || s.InsertVault? || s.MarkDeleted? || s.Restore?
  }

  function Apply(w: World, step: Step): World {
    match step
    case Tick(ms) => w.(now := w.now + ms)
    case Begin(t, call) => if t in w.threads then w else w.(threads := w.threads[t := NewThread(call)])
    case Advance(t, enabled, freshId) => if t in w.threads then Act(w, t, Next(w, w.threads[t], enabled, freshId)) else w
    case Administer(s) => if Administrative(s) then Exec(w, s).0 else w
  }

  /** What administration leaves in the tables; what runs only inside a call is refused. */
  lemma AdministersExactly(w: World, s: Statement)
    ensures var after := Apply(w, Administer(s));
            && after.now == w.now && after.threads == w.threads
            && after.db == match s
                 case UpdateInvitation(id, status) => if status == Withdrawn then SetInvitationStatus(w.db, id, status) else w.db
                 case Claim(id, org) => ClaimDelivery(w.db, id, org, w.now).0
                 case ReplaceWrapper(v, u, e) => UpsertPasswordWrapper(w.db, u, v, e).0
                 case Prune => PruneExpired(w.db, w.now)
                 case Queue(v) => QueueRefresh(w.db, v, w.nextRevision)
                 case Finish(v, revision) => FinishRefresh(w.db, v, revision)
                 case InsertVault(v, org, u, e, maxVaults) => CreateVault(w.db, v, org, u, e, maxVaults, w.now).0
                 case MarkDeleted(v) =>
                   if v in w.db.vaults && w.db.vaults[v].deletedAt == None
                   then w.db.(vaults := w.db.vaults[v := w.db.vaults[v].(deletedAt := Some(w.now))]) else w.db
                 case Restore(v) =>
                   if v in w.db.vaults then w.db.(vaults := w.db.vaults[v := w.db.vaults[v].(deletedAt := None)]) else w.db
                 case _ => w.db
  {
    if Administrative(s) {
      ExecutesOnTheTables(w, s);
    }
    hide Exec, ClaimDelivery, UpsertPasswordWrapper, PruneExpired, CreateVault, SetInvitationStatus, FinishRefresh;
    hide QueueRefresh;
  }

  lemma ExecutesOnTheTables(w: World, s: Statement)
    ensures var next := Exec(w, s).0;
            && next.db == Execute(w.db, s, w.now, w.nextRevision).0 && next.now == w.now && next.threads == w.threads
  {
    hide Execute, CountRemoval;
  }

  function Run(w: World, steps: seq<Step>): World
    decreases |steps|
  {
    if steps == [] then w else Run(Apply(w, steps[0]), steps[1..])
  }

  /** Organizations and accounts as given, everything else empty. */
  function Initial(members: map<(OrgId, UserId), Role>, emails: map<UserId, Email>, now: int): World {
    World(Db(members, emails, map[], map[], map[], map[], map[], map[], []), now, 0, map[], map[], map[], map[])
  }
}
