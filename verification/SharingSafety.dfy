/** What every run of the sharing service keeps: the key-request rules, the access epochs and the
    organization's owner. */
module SharingSafety {
  import opened Wrappers
  import opened VaultCrypto
  import opened SharingTables
  import opened SharingService

  // -------------------------------------------------------------- invariants

  /** The columns of a request that never change. */
  predicate SameIdentity(a: KeyRequest, b: KeyRequest) {
    a.vault == b.vault && a.user == b.user && a.accessVersion == b.accessVersion && a.publicKey == b.publicKey
  }

  predicate SameInvitation(a: Invitation, b: Invitation) {
    a.org == b.org && a.email == b.email && a.role == b.role && a.inviter == b.inviter
  }

  predicate SameSlot(a: KeyRequest, b: KeyRequest) {
    a.vault == b.vault && a.user == b.user
  }

  /** At most one open request for each vault and user; ciphertext exactly while approved; nobody
      approves a request of their own. */
  predicate KeyRequestRules(requests: map<RequestId, KeyRequest>) {
    && (forall r, q | r in requests && q in requests && OpenRequest(requests[r]) && OpenRequest(requests[q])
                      && SameSlot(requests[r], requests[q]) :: r == q)
    && (forall r | r in requests :: ApprovedByAnother(requests[r]))
  }

  predicate ApprovedByAnother(r: KeyRequest) {
    && (r.envelope.Some? <==> r.status.Approved?)
    && (r.status.Approved? ==> r.approvedBy.Some?)
    && (r.approvedBy.Some? ==> r.approvedBy.value != r.user)
  }

  /** One user's grant for one vault, with the histories of both. */
  datatype GrantView = GrantView(grant: Option<Grant>, removals: nat, activation: nat)

  function View(w: World, v: VaultId, u: UserId): GrantView {
    GrantView(GrantOf(w.db, v, u), Removals(w, v, u), Activation(w, v, u))
  }

  /** An access version `x` read when the user had been removed `stamp` times: if the grant is still
      usable under that version, no removal has come in between. */
  predicate FreshIn(g: GrantView, x: nat, stamp: nat) {
    if g.grant.None? then x == 0
    else
      && x <= g.grant.value.accessVersion
      && (!g.grant.value.status.Revoked? && g.grant.value.accessVersion == x ==> stamp == g.removals)
  }

  predicate Fresh(w: World, v: VaultId, u: UserId, x: nat, stamp: nat) {
    FreshIn(View(w, v, u), x, stamp)
  }

  /** An active grant was activated by a request whose version was read after the last removal. */
  predicate GrantRules(g: GrantView) {
    g.grant.Some? ==>
      && g.grant.value.accessVersion >= 1
      && (g.grant.value.status.Active? ==> g.activation == g.removals)
  }

  predicate RequestFresh(w: World, r: RequestId)
    requires r in w.db.requests
  {
    Fresh(w, w.db.requests[r].vault, w.db.requests[r].user, w.db.requests[r].accessVersion, Stamp(w, r))
  }

  ghost predicate EpochRules(w: World) {
    && (forall r | r in w.db.requests :: RequestFresh(w, r))
    && (forall v, u :: GrantRules(View(w, v, u)))
  }

  predicate InvitationRules(db: Db) {
    forall i | i in db.invitations :: !db.invitations[i].role.Owner? && Lower(db.invitations[i].email) == db.invitations[i].email
  }

  predicate ThreadRules(w: World, th: Thread) {
    match th.call
    case Start(u, v, _, _) =>
      th.pc in {RequestRead, Write} ==> Fresh(w, v, u, if th.grant.Some? then th.grant.value.accessVersion else 0, th.stamp)
    case Approve(u, _, r, _) =>
      th.pc in {VaultReread, MemberReread, GrantReread, Write} ==> r in w.db.requests && w.db.requests[r].user != u
    case Complete(u, v, r, _) =>
      th.pc == Write ==>
        && th.row.Some? && r in w.db.requests && SameIdentity(th.row.value, w.db.requests[r])
        && th.row.value.vault == v && th.row.value.user == u
    case Invite(_, _, _, role, _) => th.pc in {SharingCheck, Write} ==> !role.Owner?
    case Respond(_, _, i, _) =>
      th.pc in {SharingCheck, InviterRead, Write} ==>
        th.invite.Some? && i in w.db.invitations && SameInvitation(th.invite.value, w.db.invitations[i])
    case ChangeMember(_, org, target, newRole) =>
      th.pc == Write ==>
        && ((org, target) in w.db.members ==> !w.db.members[(org, target)].Owner?)
        && newRole != Some(Owner)
  }

  ghost predicate Inv(w: World) {
    && KeyRequestRules(w.db.requests) && EpochRules(w) && InvitationRules(w.db)
    && forall t | t in w.threads :: ThreadRules(w, w.threads[t])
  }

  /** What the service has established by the time it runs a statement. */
  predicate Justified(w: World, s: Statement) {
    match s
    case InsertInvitation(_, _, email, role, _, _) => !role.Owner? && Lower(email) == email
    case Accept(id, invite, _) => id in w.db.invitations && SameInvitation(invite, w.db.invitations[id])
    case UpdateRole(_, _, role) => !role.Owner?
    case Remove(org, u) => (org, u) in w.db.members ==> !w.db.members[(org, u)].Owner?
    case InsertRequest(_, row, stamp) =>
      && row.status.Pending? && row.envelope.None? && row.approvedBy.None?
      && Fresh(w, row.vault, row.user, row.accessVersion, stamp)
    case ApproveRequest(r, u, _) => r in w.db.requests && w.db.requests[r].user != u
    case CompleteRequest(r, row, _) => r in w.db.requests && SameIdentity(row, w.db.requests[r])
    case _ => true
  }

  // ------------------------------------------------- which tables change

  predicate WritesRequests(s: Statement) {
    s.Remove? || s.InsertRequest? || s.ApproveRequest? || s.CompleteRequest? || s.ReplaceWrapper? || s.Prune?
  }

  predicate WritesGrants(s: Statement) {
    s.Enroll? || s.Remove? || s.CompleteRequest? || s.InsertVault?
  }

  predicate WritesMembers(s: Statement) {
    s.Accept? || s.UpdateRole? || s.Remove?
  }

  predicate WritesVaults(s: Statement) {
    s.Accept? || s.InsertVault? || s.MarkDeleted? || s.Restore?
  }

  predicate WritesWrappers(s: Statement) {
    s.Remove? || s.CompleteRequest? || s.ReplaceWrapper? || s.InsertVault?
  }

  predicate WritesRefreshes(s: Statement) {
    s.Accept? || s.Remove? || s.Queue? || s.Finish?
  }

  predicate WritesInvitations(s: Statement) {
    s.InsertInvitation? || s.UpdateInvitation? || s.Accept?
  }

  lemma UntouchedTables(db: Db, s: Statement, now: int, revision: Revision)
    ensures var next := Execute(db, s, now, revision).0;
            && (!WritesRequests(s) ==> next.requests == db.requests)
            && (!WritesGrants(s) ==> next.grants == db.grants)
  {
    hide CreateInvitation, SetInvitationStatus, AcceptInvitation, ClaimDelivery, EnsureEnrollment, ChangeRole, RemoveMember;
    hide CreateKeyRequest, ApproveKeyRequest, CompleteKeyRequest, UpsertPasswordWrapper, PruneExpired, QueueRefresh;
    hide FinishRefresh, CreateVault, SetDeleted, LiveVault;
    match s
    case InsertInvitation(_, _, _, _, _, _) =>
    case UpdateInvitation(_, _) =>
    case Accept(_, _, _) =>
    case Claim(_, _) =>
    case Enroll(_, _) =>
    case UpdateRole(_, _, _) =>
    case Remove(_, _) =>
    case InsertRequest(_, _, _) =>
    case ApproveRequest(_, _, _) =>
    case CompleteRequest(_, _, _) =>
    case ReplaceWrapper(_, _, _) =>
    case Prune =>
    case Queue(_) =>
    case Finish(_, _) =>
    case InsertVault(_, _, _, _, _) =>
    case MarkDeleted(_) =>
    case Restore(_) =>
  }

  lemma UntouchedRest(db: Db, s: Statement, now: int, revision: Revision)
    ensures var next := Execute(db, s, now, revision).0;
            && (!WritesVaults(s) ==> next.vaults == db.vaults)
            && (!WritesWrappers(s) ==> next.wrappers == db.wrappers)
            && (!WritesRefreshes(s) ==> next.refreshes == db.refreshes)
  {
    hide CreateInvitation, SetInvitationStatus, AcceptInvitation, ClaimDelivery, EnsureEnrollment, ChangeRole, RemoveMember;
    hide CreateKeyRequest, ApproveKeyRequest, CompleteKeyRequest, UpsertPasswordWrapper, PruneExpired, QueueRefresh;
    hide FinishRefresh, CreateVault, SetDeleted, LiveVault;
    match s
    case InsertInvitation(_, _, _, _, _, _) =>
    case UpdateInvitation(_, _) =>
    case Accept(_, _, _) =>
    case Claim(_, _) =>
    case Enroll(_, _) =>
    case UpdateRole(_, _, _) =>
    case Remove(_, _) =>
    case InsertRequest(_, _, _) =>
    case ApproveRequest(_, _, _) =>
    case CompleteRequest(_, _, _) =>
    case ReplaceWrapper(_, _, _) =>
    case Prune =>
    case Queue(_) =>
    case Finish(_, _) =>
    case InsertVault(_, _, _, _, _) =>
    case MarkDeleted(_) =>
    case Restore(_) =>
  }

  lemma UntouchedPeople(db: Db, s: Statement, now: int, revision: Revision)
    ensures var next := Execute(db, s, now, revision).0;
            && (!WritesMembers(s) ==> next.members == db.members)
            && (!WritesInvitations(s) ==> next.invitations == db.invitations)
            && (!s.Claim? ==> next.audit == db.audit)
            && next.emails == db.emails
  {
    hide CreateInvitation, SetInvitationStatus, AcceptInvitation, ClaimDelivery, EnsureEnrollment, ChangeRole, RemoveMember;
    hide CreateKeyRequest, ApproveKeyRequest, CompleteKeyRequest, UpsertPasswordWrapper, PruneExpired, QueueRefresh;
    hide FinishRefresh, CreateVault, SetDeleted, LiveVault;
    match s
    case InsertInvitation(_, _, _, _, _, _) =>
    case UpdateInvitation(_, _) =>
    case Accept(_, _, _) =>
    case Claim(_, _) =>
    case Enroll(_, _) =>
    case UpdateRole(_, _, _) =>
    case Remove(_, _) =>
    case InsertRequest(_, _, _) =>
    case ApproveRequest(_, _, _) =>
    case CompleteRequest(_, _, _) =>
    case ReplaceWrapper(_, _, _) =>
    case Prune =>
    case Queue(_) =>
    case Finish(_, _) =>
    case InsertVault(_, _, _, _, _) =>
    case MarkDeleted(_) =>
    case Restore(_) =>
  }

  /** Every table and history a statement is not listed as writing stays as it was. */
  lemma Untouched(w: World, s: Statement)
    ensures var next := Exec(w, s).0;
            && (next.db, Exec(w, s).1) == Execute(w.db, s, w.now, w.nextRevision)
            && next.now == w.now && next.threads == w.threads && next.nextRevision == w.nextRevision + 2
            && (!WritesRequests(s) ==> next.db.requests == w.db.requests)
            && (!WritesGrants(s) ==> next.db.grants == w.db.grants)
            && (!WritesMembers(s) ==> next.db.members == w.db.members)
            && (!WritesInvitations(s) ==> next.db.invitations == w.db.invitations)
            && (!WritesVaults(s) ==> next.db.vaults == w.db.vaults)
            && (!WritesWrappers(s) ==> next.db.wrappers == w.db.wrappers)
            && (!WritesRefreshes(s) ==> next.db.refreshes == w.db.refreshes)
            && (!s.Claim? ==> next.db.audit == w.db.audit)
            && next.db.emails == w.db.emails
            && (!s.Remove? ==> next.removals == w.removals)
            && (!s.InsertRequest? ==> next.stamps == w.stamps)
            && (!s.CompleteRequest? && !s.InsertVault? ==> next.activations == w.activations)
  {
    hide Execute, CountRemoval;
    UntouchedTables(w.db, s, w.now, w.nextRevision);
    UntouchedRest(w.db, s, w.now, w.nextRevision);
    UntouchedPeople(w.db, s, w.now, w.nextRevision);
  }

  // ------------------------------------------------- statements keep the rules

  lemma LowerIsIdempotent(s: string)
    ensures Lower(Lower(s)) == Lower(s)
  {
  }

  /** A row keeps its identity, and once canceled or completed it never opens again. */
  predicate KeepsRow(a: KeyRequest, b: KeyRequest) {
    SameIdentity(a, b) && (a.status.Canceled? ==> b.status.Canceled?) && (!OpenRequest(a) ==> !OpenRequest(b))
  }

  predicate KeepsRows(before: map<RequestId, KeyRequest>, after: map<RequestId, KeyRequest>) {
    forall r | r in before :: r in after && KeepsRow(before[r], after[r])
  }

  lemma RequestsKeepIdentity(w: World, s: Statement)
    ensures KeepsRows(w.db.requests, Exec(w, s).0.db.requests)
  {
    hide Exec, Execute, WrittenRequests;
    Untouched(w, s);
    if WritesRequests(s) {
      RequestsAfter(w, s);
      WrittenRequestsKeepIdentity(w.db, s, w.now);
    }
  }

  lemma UpdatingKeepsRows(requests: map<RequestId, KeyRequest>, id: RequestId, row: KeyRequest)
    requires id in requests ==> KeepsRow(requests[id], row)
    ensures KeepsRows(requests, requests[id := row])
  {
  }

  lemma CancelingKeepsRows(before: map<RequestId, KeyRequest>, after: map<RequestId, KeyRequest>)
    requires after.Keys == before.Keys
    requires forall r | r in before :: after[r] == before[r] || after[r] == CanceledRequest(before[r])
    ensures KeepsRows(before, after)
  {
  }

  lemma WrittenRequestsKeepIdentity(db: Db, s: Statement, now: int)
    requires WritesRequests(s)
    ensures KeepsRows(db.requests, WrittenRequests(db, s, now))
  {
    hide IsVaultManager, Enrolled, IsMember, MayChangePassword, LiveVault, VaultIdsOf, KeepsRows;
    match s
    case Remove(org, u) => CancelingKeepsRows(db.requests, WrittenRequests(db, s, now));
    case InsertRequest(id, row, _) =>
      CancelingKeepsRows(db.requests, db.requests);
      if id !in db.requests {
        CancelingKeepsRows(db.requests, CancelOpen(db.requests, row.vault, row.user));
        InsertingKeepsRows(db.requests, CancelOpen(db.requests, row.vault, row.user), id, row);
      }
    case ApproveRequest(id, u, transfer) =>
      CancelingKeepsRows(db.requests, db.requests);
      if MayApprove(db, id, u, now) {
        UpdatingKeepsRows(db.requests, id, WrittenRequests(db, s, now)[id]);
      }
    case CompleteRequest(id, row, _) =>
      CancelingKeepsRows(db.requests, db.requests);
      if MayComplete(db, id, row, now) {
        UpdatingKeepsRows(db.requests, id, WrittenRequests(db, s, now)[id]);
      }
    case ReplaceWrapper(v, u, envelope) => CancelingKeepsRows(db.requests, WrittenRequests(db, s, now));
    case Prune => CancelingKeepsRows(db.requests, WrittenRequests(db, s, now));
  }

  lemma InsertingKeepsRows(before: map<RequestId, KeyRequest>, canceled: map<RequestId, KeyRequest>, id: RequestId, row: KeyRequest)
    requires KeepsRows(before, canceled) && id !in before
    ensures KeepsRows(before, canceled[id := row])
  {
  }

  /** The requests after a statement that writes them, table by table. */
  function WrittenRequests(db: Db, s: Statement, now: int): map<RequestId, KeyRequest>
    requires WritesRequests(s)
  {
    match s
    case Remove(org, u) => CancelRequests(db.requests, VaultIdsOf(db.vaults, org), u)
    case InsertRequest(id, row, _) => CreateKeyRequest(db, id, row).0.requests
    case ApproveRequest(id, u, transfer) =>
      if MayApprove(db, id, u, now)
      then db.requests[id := db.requests[id].(status := Approved, approvedBy := Some(u), envelope := Some(transfer))] else db.requests
    case CompleteRequest(id, row, _) =>
      if MayComplete(db, id, row, now)
      then db.requests[id := db.requests[id].(status := Completed, envelope := None)] else db.requests
    case ReplaceWrapper(v, u, envelope) => if MayChangePassword(db, u, v, envelope) then CancelOpen(db.requests, v, u) else db.requests
    case Prune => PruneExpired(db, now).requests
  }

  lemma RequestsAfter(w: World, s: Statement)
    requires WritesRequests(s)
    ensures Exec(w, s).0.db.requests == WrittenRequests(w.db, s, w.now)
  {
    hide Queued, CancelOpen, RevokeGrants, RevokeWrappers, CancelRequests, CountRemoval, WrittenWrapper;
  }

  /** The invitations after a statement that writes them. */
  function WrittenInvitations(db: Db, s: Statement, now: int): map<InvitationId, Invitation>
    requires WritesInvitations(s)
  {
    match s
    case InsertInvitation(id, org, email, role, inviter, limit) =>
      if id !in db.invitations && MayInvite(db, org, email, limit, now)
      then db.invitations[id := Invitation(org, email, role, Invited, now + REQUEST_LIFETIME_MS, now, inviter)] else db.invitations
    case UpdateInvitation(id, status) => SetInvitationStatus(db, id, status).invitations
    case Accept(id, _, _) =>
      if LiveInvitation(db, id, now) then db.invitations[id := db.invitations[id].(status := Accepted)] else db.invitations
  }

  lemma InvitationsAfter(w: World, s: Statement)
    requires WritesInvitations(s)
    ensures Exec(w, s).0.db.invitations == WrittenInvitations(w.db, s, w.now)
  {
    hide Shared, Queued, MayInvite, LiveVaultIdsOf, CountRemoval;
  }

  predicate KeepsInvitations(before: map<InvitationId, Invitation>, after: map<InvitationId, Invitation>) {
    forall i | i in before :: i in after && SameInvitation(before[i], after[i])
  }

  lemma WrittenInvitationsKeepIdentity(db: Db, s: Statement, now: int)
    requires WritesInvitations(s)
    ensures KeepsInvitations(db.invitations, WrittenInvitations(db, s, now))
  {
    hide MayInvite;
  }

  lemma InvitationsKeepIdentity(w: World, s: Statement)
    ensures KeepsInvitations(w.db.invitations, Exec(w, s).0.db.invitations)
  {
    hide Exec, Execute, WrittenInvitations;
    if WritesInvitations(s) {
      InvitationsAfter(w, s);
      WrittenInvitationsKeepIdentity(w.db, s, w.now);
    } else {
      Untouched(w, s);
    }
  }

  /** The memberships after a statement that writes them. */
  function WrittenMembers(db: Db, s: Statement, now: int): map<(OrgId, UserId), Role>
    requires WritesMembers(s)
  {
    match s
    case Accept(id, invite, user) =>
      if LiveInvitation(db, id, now) && (invite.org, user) !in db.members then db.members[(invite.org, user) := invite.role]
      else db.members
    case UpdateRole(org, u, role) => ChangeRole(db, org, u, role).members
    case Remove(org, u) => db.members - {(org, u)}
  }

  lemma MembersAfter(w: World, s: Statement)
    requires WritesMembers(s)
    ensures Exec(w, s).0.db.members == WrittenMembers(w.db, s, w.now)
  {
    hide Shared, Queued, LiveVaultIdsOf, VaultIdsOf, RevokeGrants, RevokeWrappers, CancelRequests, CountRemoval, LiveInvitation;
  }

  lemma ClosingKeepsRules(before: map<RequestId, KeyRequest>, requests: map<RequestId, KeyRequest>)
    requires KeyRequestRules(before) && requests.Keys == before.Keys
    requires forall r | r in requests :: requests[r] == before[r] || requests[r] == CanceledRequest(before[r])
    ensures KeyRequestRules(requests)
  {
  }

  lemma InsertingKeepsRules(requests: map<RequestId, KeyRequest>, id: RequestId, row: KeyRequest)
    requires KeyRequestRules(requests) && row.status.Pending? && row.envelope.None? && row.approvedBy.None?
    ensures KeyRequestRules(CancelOpen(requests, row.vault, row.user)[id := row])
  {
    var canceled := CancelOpen(requests, row.vault, row.user);
    ClosingKeepsRules(requests, canceled);
    assert forall r | r in canceled && OpenRequest(canceled[r]) :: !SameSlot(canceled[r], row);
    hide CancelOpen;
  }

  /** Changing one request's state, without opening it, keeps the rules. */
  lemma ChangingKeepsRules(requests: map<RequestId, KeyRequest>, id: RequestId, row: KeyRequest)
    requires KeyRequestRules(requests) && id in requests && SameSlot(row, requests[id]) && ApprovedByAnother(row)
    requires OpenRequest(row) ==> OpenRequest(requests[id])
    ensures KeyRequestRules(requests[id := row])
  {
  }

  lemma KeyRequestRulesKept(w: World, s: Statement)
    requires KeyRequestRules(w.db.requests) && Justified(w, s)
    ensures KeyRequestRules(Exec(w, s).0.db.requests)
  {
    hide Exec, Execute, Fresh, KeyRequestRules, MayComplete;
    Untouched(w, s);
    var requests := Exec(w, s).0.db.requests;
    if WritesRequests(s) {
      RequestsAfter(w, s);
      match s
      case Remove(org, u) => ClosingKeepsRules(w.db.requests, requests);
      case InsertRequest(id, row, _) => InsertingKeepsRules(w.db.requests, id, row);
      case ApproveRequest(id, u, transfer) =>
        if MayApprove(w.db, id, u, w.now) {
          ChangingKeepsRules(w.db.requests, id, requests[id]);
        }
      case CompleteRequest(id, row, _) =>
        if MayComplete(w.db, id, row, w.now) {
          CompletedIsKnown(w, id, row);
          ChangingKeepsRules(w.db.requests, id, requests[id]);
        }
      case ReplaceWrapper(v, u, _) => ClosingKeepsRules(w.db.requests, requests);
      case Prune => ClosingKeepsRules(w.db.requests, requests);
    }
  }

  lemma CompletedIsKnown(w: World, id: RequestId, row: KeyRequest)
    requires KeyRequestRules(w.db.requests) && MayComplete(w.db, id, row, w.now)
    ensures id in w.db.requests && w.db.requests[id].status.Approved? && w.db.requests[id].approvedBy.Some?
    ensures w.db.requests[id].approvedBy.value != w.db.requests[id].user
  {
    assert ApprovedByAnother(w.db.requests[id]);
  }

  lemma InvitationRulesKept(w: World, s: Statement)
    requires InvitationRules(w.db) && Justified(w, s)
    ensures InvitationRules(Exec(w, s).0.db)
  {
    hide Exec, Execute, MayInvite, Lower;
    Untouched(w, s);
    if WritesInvitations(s) {
      InvitationsAfter(w, s);
    }
  }

  // ------------------------------------------------- how one grant can change

  /** Everything that can happen to one grant in one statement. */
  predicate Transition(a: GrantView, b: GrantView) {
    || b == a
    || (a.grant.None? && b.grant.Some? && b.grant.value.accessVersion == 1 && b.grant.value.status.PendingKey?
        && b.removals == a.removals)                                                        // enrolled
    || (a.grant.Some? && a.grant.value.status.Revoked? && b.grant.Some? && b.grant.value.status.PendingKey?
        && b.grant.value.accessVersion == a.grant.value.accessVersion + 1 && b.removals == a.removals)  // enrolled anew
    || (b.removals == a.removals + 1 && (a.grant.None? <==> b.grant.None?)
        && (b.grant.Some? ==>
              if a.grant.value.status.Revoked? then b.grant == a.grant
              else b.grant.value.status.Revoked? && b.grant.value.accessVersion == a.grant.value.accessVersion + 1))  // removed
    || (a.grant.Some? && !a.grant.value.status.Revoked? && b.removals == a.removals && b.activation == a.removals
        && b.grant == Some(a.grant.value.(status := Active, revokedAt := None)))            // completed
    || (a.grant.None? && b.grant.Some? && b.grant.value.accessVersion == 1 && b.grant.value.status.Active?
        && b.removals == a.removals && b.activation == a.removals)                                                      // created
  }

  lemma TransitionKeepsFresh(a: GrantView, b: GrantView, x: nat, stamp: nat)
    requires Transition(a, b) && FreshIn(a, x, stamp)
    ensures FreshIn(b, x, stamp)
  {
  }

  lemma TransitionKeepsRules(a: GrantView, b: GrantView)
    requires Transition(a, b) && GrantRules(a)
    ensures GrantRules(b)
  {
  }

  lemma EnrolledGrant(db: Db, v: VaultId, u: UserId, vault: VaultId, user: UserId)
    ensures var after := GrantOf(EnsureEnrollment(db, vault, user), v, u);
            || after == GrantOf(db, v, u)
            || (GrantOf(db, v, u).None? && after == Some(Grant(1, false, PendingKey, None)))
            || (GrantOf(db, v, u).Some? && GrantOf(db, v, u).value.status.Revoked? && after.Some?
                && after.value.status.PendingKey? && after.value.accessVersion == GrantOf(db, v, u).value.accessVersion + 1)
  {
    hide LiveVault, IsMember;
    if (v, u) != (vault, user) {
      assert GrantOf(EnsureEnrollment(db, vault, user), v, u) == GrantOf(db, v, u);
    }
  }

  lemma EnrollChanges(w: World, s: Statement, v: VaultId, u: UserId)
    requires s.Enroll?
    ensures Transition(View(w, v, u), View(Exec(w, s).0, v, u))
  {
    Untouched(w, s);
    assert Exec(w, s).0.db == EnsureEnrollment(w.db, s.vault, s.user);
    EnrolledGrant(w.db, v, u, s.vault, s.user);
    hide Execute, Exec, EnsureEnrollment;
  }

  lemma RemovedGrant(w: World, s: Statement)
    requires s.Remove?
    ensures var next := Exec(w, s).0;
            var vaults := VaultIdsOf(w.db.vaults, s.org);
            && next.db.grants == RevokeGrants(w.db.grants, vaults, s.user, w.now)
            && next.removals == CountRemoval(w, vaults, s.user)
            && next.activations == w.activations
  {
    hide Queued, RevokeGrants, RevokeWrappers, CancelRequests, VaultIdsOf, CountRemoval;
  }

  lemma RemoveChanges(w: World, s: Statement, v: VaultId, u: UserId)
    requires s.Remove?
    ensures Transition(View(w, v, u), View(Exec(w, s).0, v, u))
  {
    RemovedGrant(w, s);
    RemovedView(w, Exec(w, s).0, VaultIdsOf(w.db.vaults, s.org), s.user, v, u);
    hide *;
  }

  lemma RemovedView(w: World, next: World, vaults: set<VaultId>, removed: UserId, v: VaultId, u: UserId)
    requires next.db.grants == RevokeGrants(w.db.grants, vaults, removed, w.now)
    requires next.removals == CountRemoval(w, vaults, removed) && next.activations == w.activations
    ensures Transition(View(w, v, u), View(next, v, u))
  {
    RevokedAt(w.db.grants, vaults, removed, w.now, v, u);
    CountedAt(w, vaults, removed, v, u);
    hide RevokeGrants, CountRemoval;
  }

  lemma RevokedAt(grants: map<(VaultId, UserId), Grant>, vaults: set<VaultId>, removed: UserId, now: int, v: VaultId, u: UserId)
    ensures var after := RevokeGrants(grants, vaults, removed, now);
            && ((v, u) in after <==> (v, u) in grants)
            && ((v, u) in grants ==>
                  after[(v, u)] == if v in vaults && u == removed then RevokedGrant(grants[(v, u)], now) else grants[(v, u)])
  {
  }

  lemma CountedAt(w: World, vaults: set<VaultId>, removed: UserId, v: VaultId, u: UserId)
    ensures var counts := CountRemoval(w, vaults, removed);
            (if (v, u) in counts then counts[(v, u)] else 0)
            == Removals(w, v, u) + if v in vaults && u == removed && (v, u) in counts then 1 else 0
    ensures v in vaults && u == removed ==> (v, u) in CountRemoval(w, vaults, removed)
  {
  }

  lemma CompleteChanges(w: World, s: Statement, v: VaultId, u: UserId)
    requires s.CompleteRequest? && EpochRules(w) && Justified(w, s)
    ensures Transition(View(w, v, u), View(Exec(w, s).0, v, u))
  {
    CompletedView(w, s, v, u);
    if (v, u) == (s.row.vault, s.row.user) && MayComplete(w.db, s.request, s.row, w.now) {
      CompletionIsFresh(w, s.request, s.row);
    }
    hide Exec, EpochRules, Justified, MayComplete, View;
  }

  lemma CompletionIsFresh(w: World, id: RequestId, row: KeyRequest)
    requires EpochRules(w) && MayComplete(w.db, id, row, w.now) && SameIdentity(row, w.db.requests[id])
    ensures Stamp(w, id) == Removals(w, row.vault, row.user)
    ensures View(w, row.vault, row.user).grant.Some? && !View(w, row.vault, row.user).grant.value.status.Revoked?
    ensures View(w, row.vault, row.user).removals == Removals(w, row.vault, row.user)
  {
    assert RequestFresh(w, id);
  }

  lemma CompletedView(w: World, s: Statement, v: VaultId, u: UserId)
    requires s.CompleteRequest?
    ensures var a, b := View(w, v, u), View(Exec(w, s).0, v, u);
            if (v, u) == (s.row.vault, s.row.user) && MayComplete(w.db, s.request, s.row, w.now) then
              && a.grant.Some?
              && b == GrantView(Some(a.grant.value.(status := Active, revokedAt := None)), a.removals, Stamp(w, s.request))
            else b == a
  {
    Untouched(w, s);
    CompletedGrant(w, s);
    hide Exec, Execute, IsMember;
    var next := Exec(w, s).0;
    if (v, u) != (s.row.vault, s.row.user) || !MayComplete(w.db, s.request, s.row, w.now) {
      assert GrantOf(next.db, v, u) == GrantOf(w.db, v, u) && Activation(next, v, u) == Activation(w, v, u);
    }
    hide MayComplete;
  }

  lemma CompletedGrant(w: World, s: Statement)
    requires s.CompleteRequest?
    ensures var next := Exec(w, s).0;
            var k := (s.row.vault, s.row.user);
            if MayComplete(w.db, s.request, s.row, w.now) then
              && next.db.grants == w.db.grants[k := w.db.grants[k].(status := Active, revokedAt := None)]
              && next.activations == w.activations[k := Stamp(w, s.request)]
            else next.db.grants == w.db.grants && next.activations == w.activations
  {
    hide WrittenWrapper, IsMember;
  }

  lemma CreateChanges(w: World, s: Statement, v: VaultId, u: UserId)
    requires s.InsertVault?
    ensures Transition(View(w, v, u), View(Exec(w, s).0, v, u))
  {
    Untouched(w, s);
    hide MembersOf, LiveVaultIdsOf;
  }

  lemma ViewChanges(w: World, s: Statement, v: VaultId, u: UserId)
    requires EpochRules(w) && Justified(w, s)
    ensures Transition(View(w, v, u), View(Exec(w, s).0, v, u))
  {
    hide Exec, Execute, EpochRules, Justified, Transition;
    Untouched(w, s);
    if s.Enroll? {
      EnrollChanges(w, s, v, u);
    } else if s.Remove? {
      RemoveChanges(w, s, v, u);
    } else if s.CompleteRequest? {
      CompleteChanges(w, s, v, u);
    } else if s.InsertVault? {
      CreateChanges(w, s, v, u);
    } else {
      assert View(w, v, u) == View(Exec(w, s).0, v, u);
      SameIsTransition(View(w, v, u));
    }
  }

  lemma SameIsTransition(a: GrantView)
    ensures Transition(a, a)
  {
  }

  lemma FreshKept(w: World, s: Statement, v: VaultId, u: UserId, x: nat, stamp: nat)
    requires EpochRules(w) && Justified(w, s) && Fresh(w, v, u, x, stamp)
    ensures Fresh(Exec(w, s).0, v, u, x, stamp)
  {
    hide Exec, EpochRules, Justified, Transition, View, FreshIn;
    ViewChanges(w, s, v, u);
    TransitionKeepsFresh(View(w, v, u), View(Exec(w, s).0, v, u), x, stamp);
  }

  lemma StampsAfter(w: World, s: Statement)
    ensures var next := Exec(w, s).0;
            && (s.InsertRequest? && s.request !in w.db.requests ==>
                  && next.stamps == w.stamps[s.request := s.stamp]
                  && s.request in next.db.requests && next.db.requests[s.request] == s.row)
            && (forall r | r in w.db.requests :: Stamp(next, r) == Stamp(w, r))
            && (forall r | r in next.db.requests && r !in w.db.requests :: s.InsertRequest? && r == s.request)
  {
    hide Execute;
    Untouched(w, s);
    hide Exec;
    if WritesRequests(s) {
      RequestsAfter(w, s);
    }
    if s.InsertRequest? {
      StampInserted(w, s);
    }
  }

  lemma StampInserted(w: World, s: Statement)
    requires s.InsertRequest?
    ensures Exec(w, s).0.stamps == if s.request in w.db.requests then w.stamps else w.stamps[s.request := s.stamp]
  {
    hide CancelOpen;
  }

  lemma EpochRulesKept(w: World, s: Statement)
    requires EpochRules(w) && Justified(w, s)
    ensures EpochRules(Exec(w, s).0)
  {
    hide Exec, View, FreshIn, GrantRules, Transition, Stamp;
    var next := Exec(w, s).0;
    RequestsKeepIdentity(w, s);
    StampsAfter(w, s);
    forall r | r in next.db.requests
      ensures RequestFresh(next, r)
    {
      if r in w.db.requests {
        assert RequestFresh(w, r);
        FreshKept(w, s, w.db.requests[r].vault, w.db.requests[r].user, w.db.requests[r].accessVersion, Stamp(w, r));
      } else {
        FreshKept(w, s, s.row.vault, s.row.user, s.row.accessVersion, s.stamp);
        StampOfInserted(w, s, r);
      }
    }
    forall v, u
      ensures GrantRules(View(next, v, u))
    {
      ViewChanges(w, s, v, u);
      TransitionKeepsRules(View(w, v, u), View(next, v, u));
    }
  }

  lemma StampOfInserted(w: World, s: Statement, r: RequestId)
    requires r in Exec(w, s).0.db.requests && r !in w.db.requests
    ensures s.InsertRequest? && r == s.request && Exec(w, s).0.db.requests[r] == s.row && Stamp(Exec(w, s).0, r) == s.stamp
  {
    hide Exec;
    StampsAfter(w, s);
  }

  // -------------------------------------------------------------- membership

  /** No statement makes or unmakes an owner. */
  lemma OwnersKept(w: World, s: Statement, k: (OrgId, UserId))
    requires InvitationRules(w.db) && Justified(w, s)
    ensures var next := Exec(w, s).0;
            (k in w.db.members && w.db.members[k].Owner?) <==> (k in next.db.members && next.db.members[k].Owner?)
  {
    hide Exec, Execute, WrittenMembers, InvitationRules, Justified;
    if WritesMembers(s) {
      MembersAfter(w, s);
      WrittenMembersKeepOwners(w, s, k);
    } else {
      Untouched(w, s);
    }
  }

  lemma WrittenMembersKeepOwners(w: World, s: Statement, k: (OrgId, UserId))
    requires InvitationRules(w.db) && Justified(w, s) && WritesMembers(s)
    ensures var after := WrittenMembers(w.db, s, w.now);
            (k in w.db.members && w.db.members[k].Owner?) <==> (k in after && after[k].Owner?)
  {
    hide LiveInvitation, Lower;
  }

  // ----------------------------------------------------------------- threads

  lemma ThreadKept(w: World, s: Statement, th: Thread)
    requires EpochRules(w) && InvitationRules(w.db) && Justified(w, s) && ThreadRules(w, th)
    ensures ThreadRules(Exec(w, s).0, th)
  {
    hide Exec, EpochRules, InvitationRules, Justified, Fresh;
    match th.call
    case Start(u, v, _, _) =>
      if Fresh(w, v, u, if th.grant.Some? then th.grant.value.accessVersion else 0, th.stamp) {
        FreshKept(w, s, v, u, if th.grant.Some? then th.grant.value.accessVersion else 0, th.stamp);
      }
    case Approve(_, _, _, _) => RequestsKeepIdentity(w, s);
    case Complete(_, _, _, _) => RequestsKeepIdentity(w, s);
    case Invite(_, _, _, _, _) =>
    case Respond(_, _, _, _) => InvitationsKeepIdentity(w, s);
    case ChangeMember(_, org, target, _) => OwnersKept(w, s, (org, target));
  }

  /** Wherever a thread goes next it is justified, and so is the statement it runs. */
  predicate Proceeds(w: World, action: Action) {
    && ThreadRules(w, action.onSuccess) && ThreadRules(w, action.onFailure)
    && (action.statement.Some? ==> Justified(w, action.statement.value))
  }

  lemma ReadGrantIsFresh(w: World, v: VaultId, u: UserId)
    ensures Fresh(w, v, u, if GrantOf(w.db, v, u).Some? then GrantOf(w.db, v, u).value.accessVersion else 0, Removals(w, v, u))
  {
  }

  lemma NewRequestIsPlain(th: Thread, now: int)
    requires th.call.Start?
    ensures var row := NewRequest(th, now);
            && row.vault == th.call.vault && row.user == th.call.user && row.status.Pending? && row.envelope.None?
            && row.approvedBy.None? && row.accessVersion == if th.grant.Some? then th.grant.value.accessVersion else 0
  {
  }

  lemma StartProceeds(w: World, th: Thread, enabled: bool)
    requires th.call.Start? && ThreadRules(w, th)
    ensures Proceeds(w, NextOfStart(w, th, enabled))
  {
    ReadGrantIsFresh(w, th.call.vault, th.call.user);
    hide Fresh, ReadVault, ReadMember, GrantOf, Removals, NewRequest;
    match th.pc
    case GrantReread =>
    case RequestRead =>
    case Write => NewRequestIsPlain(th, w.now);
    case _ =>
  }

  lemma ApproveProceeds(w: World, th: Thread, enabled: bool)
    requires th.call.Approve? && ThreadRules(w, th)
    ensures Proceeds(w, NextOfApprove(w, th, enabled))
  {
    hide ReadVault, ReadMember;
  }

  lemma CompleteProceeds(w: World, th: Thread, enabled: bool)
    requires th.call.Complete? && ThreadRules(w, th)
    ensures Proceeds(w, NextOfComplete(w, th, enabled))
  {
    hide AcceptableEnvelope, PasswordWrapper, ReadVault, ReadMember;
  }

  lemma InviteProceeds(w: World, th: Thread, enabled: bool, freshId: InvitationId)
    requires th.call.Invite? && ThreadRules(w, th)
    ensures Proceeds(w, NextOfInvite(w, th, enabled, freshId))
  {
    hide Trim, Lower;
    LowerIsIdempotent(Trim(th.call.email));
  }

  lemma RespondProceeds(w: World, th: Thread, enabled: bool)
    requires th.call.Respond? && ThreadRules(w, th)
    ensures Proceeds(w, NextOfRespond(w, th, enabled))
  {
    hide Lower;
  }

  lemma ChangeProceeds(w: World, th: Thread)
    requires th.call.ChangeMember? && ThreadRules(w, th)
    ensures Proceeds(w, NextOfChange(w, th))
  {
  }

  lemma ThreadProceeds(w: World, th: Thread, enabled: bool, freshId: InvitationId)
    requires ThreadRules(w, th)
    ensures Proceeds(w, Next(w, th, enabled, freshId))
  {
    hide Proceeds, ThreadRules, NextOfStart, NextOfApprove, NextOfComplete, NextOfInvite, NextOfRespond, NextOfChange;
    match th.call
    case Start(_, _, _, _) => StartProceeds(w, th, enabled);
    case Approve(_, _, _, _) => ApproveProceeds(w, th, enabled);
    case Complete(_, _, _, _) => CompleteProceeds(w, th, enabled);
    case Invite(_, _, _, _, _) => InviteProceeds(w, th, enabled, freshId);
    case Respond(_, _, _, _) => RespondProceeds(w, th, enabled);
    case ChangeMember(_, _, _, _) => ChangeProceeds(w, th);
  }

  // -------------------------------------------------------------------- runs

  lemma ExecKeepsInv(w: World, s: Statement)
    requires Inv(w) && Justified(w, s)
    ensures Inv(Exec(w, s).0)
  {
    hide Exec, EpochRules, InvitationRules, KeyRequestRules, Justified, ThreadRules;
    KeyRequestRulesKept(w, s);
    EpochRulesKept(w, s);
    InvitationRulesKept(w, s);
    Untouched(w, s);
    forall t | t in w.threads
      ensures ThreadRules(Exec(w, s).0, w.threads[t])
    {
      ThreadKept(w, s, w.threads[t]);
    }
  }

  /** The rules read only the tables and the histories. */
  lemma SameTablesSameRules(w: World, next: World)
    requires Inv(w) && next.db == w.db && next.removals == w.removals && next.stamps == w.stamps
    requires next.activations == w.activations
    ensures KeyRequestRules(next.db.requests) && EpochRules(next) && InvitationRules(next.db)
    ensures forall th :: ThreadRules(w, th) ==> ThreadRules(next, th)
  {
    hide KeyRequestRules, InvitationRules;
    assert forall v, u :: View(next, v, u) == View(w, v, u);
    hide View, FreshIn, GrantRules;
    assert forall r | r in w.db.requests :: RequestFresh(w, r) ==> RequestFresh(next, r);
  }

  lemma ActKeepsInv(w: World, t: ThreadId, action: Action)
    requires Inv(w) && t in w.threads && Proceeds(w, action)
    ensures Inv(Act(w, t, action))
  {
    hide Exec, EpochRules, InvitationRules, KeyRequestRules, Justified, ThreadRules;
    match action.statement
    case None => SameTablesSameRules(w, Act(w, t, action));
    case Some(s) =>
      ExecKeepsInv(w, s);
      ThreadKept(w, s, action.onSuccess);
      ThreadKept(w, s, action.onFailure);
      SameTablesSameRules(Exec(w, s).0, Act(w, t, action));
  }

  lemma StepKeepsInv(w: World, step: Step)
    requires Inv(w)
    ensures Inv(Apply(w, step))
  {
    hide Exec, EpochRules, InvitationRules, KeyRequestRules, ThreadRules, Act, Next, Proceeds;
    match step
    case Tick(ms) => SameTablesSameRules(w, Apply(w, step));
    case Begin(t, call) =>
      SameTablesSameRules(w, Apply(w, step));
      NewThreadRules(Apply(w, step), call);
    case Advance(t, enabled, freshId) =>
      if t in w.threads {
        ThreadProceeds(w, w.threads[t], enabled, freshId);
        ActKeepsInv(w, t, Next(w, w.threads[t], enabled, freshId));
      }
    case Administer(s) =>
      if Administrative(s) {
        ExecKeepsInv(w, s);
      }
  }

  lemma NewThreadRules(w: World, call: Call)
    ensures ThreadRules(w, NewThread(call))
  {
  }

  lemma {:induction false} RunKeepsInv(w: World, steps: seq<Step>)
    requires Inv(w)
    ensures Inv(Run(w, steps))
    decreases |steps|
  {
    hide Inv, Apply;
    if steps != [] {
      StepKeepsInv(w, steps[0]);
      RunKeepsInv(Apply(w, steps[0]), steps[1..]);
    }
  }

  lemma InitialInv(members: map<(OrgId, UserId), Role>, emails: map<UserId, Email>, now: int)
    ensures Inv(Initial(members, emails, now))
  {
  }
}
