/** The service's methods over the store: exactly when each succeeds, and what it leaves in the tables. */
module SharingCalls {
  import opened Wrappers
  import opened VaultCrypto
  import opened SharingTables
  import opened SharingStore
  import opened SharingService

  datatype SharingError =
    | NotFound | Forbidden | SharingUnavailable | RequestChanged | InvalidWrapper | PasswordChanged
    | InvitationConflict | InvitationUnavailable | InvitationChanged | OwnerProtected

  // ------------------------------------------- what a call leaves in the tables

  predicate MayCall(db: Db, user: UserId, vault: VaultId, manage: bool, pending: bool) {
    && LiveVault(db, vault) && IsMember(db, vault, user) && (manage ==> IsVaultManager(db, vault, user))
    && (pending || ((vault, user) in db.grants && db.grants[(vault, user)].status.Active?))
  }

  /** Managers invite members; only owners invite admins, and nobody an owner. */
  predicate MayAskFor(db: Db, user: UserId, org: OrgId, role: Role) {
    && (org, user) in db.members && IsManager(db.members[(org, user)]) && !role.Owner?
    && (role.Admin? ==> db.members[(org, user)].Owner?)
  }

  predicate MayAdmit(db: Db, invite: Invitation) {
    var k := (invite.org, invite.inviter);
    k in db.members && IsManager(db.members[k]) && (invite.role.Admin? ==> db.members[k].Owner?)
  }

  /** Nobody changes an owner; owners change roles; managers remove members, and only owners admins;
      anyone else may leave. */
  predicate MayChange(actor: Role, target: Role, self: bool, newRole: Option<Role>) {
    && !target.Owner? && newRole != Some(Owner)
    && if newRole.Some? then actor.Owner? else self || (IsManager(actor) && (target.Admin? ==> actor.Owner?))
  }

  function RequestFor(grant: Option<Grant>, user: UserId, vault: VaultId, publicKey: KeyPairId, now: int): KeyRequest {
    KeyRequest(vault, user, if grant.Some? then grant.value.accessVersion else 0, publicKey,
               if EnrollmentStatus(grant).PendingKey? then Enrollment else Recovery, Pending, None, None, now,
               now + REQUEST_LIFETIME_MS)
  }

  /** The second half of a start, on the tables the enrollment left. */
  function StartedOn(db: Db, user: UserId, vault: VaultId, id: RequestId, publicKey: KeyPairId, now: int): (Db, bool) {
    if !MayCall(db, user, vault, false, true) then (db, false)
    else if id in db.requests then
      (db, db.requests[id].user == user && db.requests[id].vault == vault && db.requests[id].publicKey == publicKey)
    else SharingTables.CreateKeyRequest(db, id, RequestFor(GrantOf(db, vault, user), user, vault, publicKey, now))
  }

  function InviteOutcome(db: Db, user: UserId, org: OrgId, email: Email, role: Role, memberLimit: nat, enabled: bool,
                         freshId: InvitationId, now: int): (Db, bool)
  {
    if !MayAskFor(db, user, org, role) || !enabled then (db, false)
    else CreateInvitation(db, freshId, org, Lower(Trim(email)), role, user, memberLimit, now)
  }

  function RespondOutcome(db: Db, user: UserId, email: Email, id: InvitationId, accept: bool, enabled: bool, now: int,
                          revision: Revision): (Db, bool)
  {
    if id !in db.invitations || Lower(db.invitations[id].email) != Lower(email) then (db, false)
    else if db.invitations[id].status.Accepted? then (db, true)
    else if !LiveInvitation(db, id, now) then (db, false)
    else if !accept then (SetInvitationStatus(db, id, Rejected), true)
    else if !enabled || !MayAdmit(db, db.invitations[id]) then (db, false)
    else AcceptInvitation(db, id, db.invitations[id], user, now, revision, revision + 1)
  }

  function ChangeOutcome(db: Db, user: UserId, org: OrgId, target: UserId, newRole: Option<Role>, now: int, revision: Revision):
    (Db, bool)
  {
    if (org, user) !in db.members then (db, false)
    else if (org, target) !in db.members then (db, newRole.None?)
    else if !MayChange(db.members[(org, user)], db.members[(org, target)], user == target, newRole) then (db, false)
    else (if newRole.Some? then ChangeRole(db, org, target, newRole.value)
          else RemoveMember(db, org, target, now, revision, revision + 1), true)
  }

  function StartOutcome(db: Db, user: UserId, vault: VaultId, id: RequestId, publicKey: KeyPairId, enabled: bool, now: int):
    (Db, bool)
  {
    if !MayCall(db, user, vault, false, true) || !enabled then (db, false)
    else StartedOn(EnsureEnrollment(db, vault, user), user, vault, id, publicKey, now)
  }

  function ApproveOutcome(db: Db, user: UserId, vault: VaultId, id: RequestId, transfer: TransferEnvelope, enabled: bool,
                          now: int): (Db, bool)
  {
    if !MayCall(db, user, vault, true, false) || !enabled || id !in db.requests || db.requests[id].vault != vault
       || db.requests[id].user == user || !MayCall(db, db.requests[id].user, vault, false, true) then (db, false)
    else SharingTables.ApproveKeyRequest(db, id, user, transfer, now)
  }

  /** What completing a request leaves: nothing changes unless it is approved and may complete; a
      completed one is answered by comparing the wrapper. */
  function CompleteOutcome(db: Db, user: UserId, vault: VaultId, id: RequestId, envelope: PasswordEnvelope, enabled: bool, now: int,
                           revision: Revision): (Db, bool)
  {
    if !MayCall(db, user, vault, false, true) || !enabled || id !in db.requests || db.requests[id].user != user
       || db.requests[id].vault != vault then (db, false)
    else if db.requests[id].status.Completed? then (db, PasswordWrapper(db, vault, user) == Some(envelope))
    else if !AcceptableEnvelope(envelope, vault, user, db.vaults[vault].keyVersion) then (db, false)
    else
      var (completed, ok) := SharingTables.CompleteKeyRequest(db, id, db.requests[id], envelope, now);
      if ok then (QueueRefresh(completed, vault, revision + 2), true) else (db, false)
  }

  function Outcome(db: Db, call: Call, enabled: bool, freshId: InvitationId, now: int, revision: Revision): (Db, bool) {
    match call
    case Start(user, vault, id, publicKey) => StartOutcome(db, user, vault, id, publicKey, enabled, now)
    case Approve(user, vault, id, transfer) => ApproveOutcome(db, user, vault, id, transfer, enabled, now)
    case Complete(user, vault, id, envelope) => CompleteOutcome(db, user, vault, id, envelope, enabled, now, revision)
    case Invite(user, org, email, role, limit) => InviteOutcome(db, user, org, email, role, limit, enabled, freshId, now)
    case Respond(user, email, id, accept) => RespondOutcome(db, user, email, id, accept, enabled, now, revision)
    case ChangeMember(user, org, target, newRole) => ChangeOutcome(db, user, org, target, newRole, now, revision)
  }

  // --------------------------------------------------------------- what it means

  predicate OwnRequest(db: Db, id: RequestId, user: UserId, vault: VaultId) {
    id in db.requests && db.requests[id].user == user && db.requests[id].vault == vault
  }

  /** One more live invitation, the only one for its email, and a free seat for it. */
  ghost predicate InvitedOne(before: Db, after: Db, id: InvitationId, org: OrgId, email: Email, memberLimit: nat, now: int) {
    && after == before.(invitations := after.invitations) && id !in before.invitations && after.invitations - {id} == before.invitations
    && LiveInvitation(after, id, now) && after.invitations[id].org == org && after.invitations[id].email == email
    && (forall other | other in LiveInvitationsOf(after, org, now) :: Lower(after.invitations[other].email) == email ==> other == id)
    && (forall u | u in MembersOf(after, org) && u in after.emails :: Lower(after.emails[u]) != email)
    && (memberLimit == 0 || |MembersOf(after, org)| + |LiveInvitationsOf(after, org, now)| <= memberLimit)
  }

  lemma InviteMeans(db: Db, user: UserId, org: OrgId, email: Email, role: Role, memberLimit: nat, enabled: bool, id: InvitationId,
                    now: int)
    requires id !in db.invitations
    ensures var (after, ok) := InviteOutcome(db, user, org, email, role, memberLimit, enabled, id, now);
            var asked := Lower(Trim(email));
            && (ok <==> MayAskFor(db, user, org, role) && enabled && MayInvite(db, org, asked, memberLimit, now))
            && (MayAskFor(db, user, org, role) <==>
                  && (org, user) in db.members && role != Owner
                  && (db.members[(org, user)] == Owner || (db.members[(org, user)] == Admin && role == Member)))
            && (ok ==> InvitedOne(db, after, id, org, asked, memberLimit, now) && after.invitations[id].role == role)
            && (!ok ==> after == db)
  {
    var asked := Lower(Trim(email));
    LoweredTwice(Trim(email));
    hide Trim, Lower;
    var (after, ok) := InviteOutcome(db, user, org, email, role, memberLimit, enabled, id, now);
    if ok {
      assert LiveInvitationsOf(after, org, now) == LiveInvitationsOf(db, org, now) + {id};
      assert MembersOf(after, org) == MembersOf(db, org);
    }
  }

  predicate AllSpaces(s: string) {
    forall i | 0 <= i < |s| :: IsSpace(s[i])
  }

  /** Trimming drops outer spaces, all of them and nothing else. */
  lemma {:induction false} TrimmedExactly(s: string) returns (front: string, back: string)
    ensures s == front + Trim(s) + back && AllSpaces(front) && AllSpaces(back)
    ensures Trim(s) != "" ==> !IsSpace(Trim(s)[0]) && !IsSpace(Trim(s)[|Trim(s)| - 1])
    decreases |s|
  {
    TrimsAtTheEnds(s);
    hide IsSpace, Trim;
    if s != "" && IsSpace(s[0]) {
      front, back := TrimmedExactly(s[1..]);
      SpaceInFront(s, front, Trim(s), back);
      front := [s[0]] + front;
    } else if s != "" && IsSpace(s[|s| - 1]) {
      front, back := TrimmedExactly(s[..|s| - 1]);
      SpaceBehind(s, front, Trim(s), back);
      back := back + [s[|s| - 1]];
    } else {
      front, back := "", "";
      assert s == "" + s + "";
    }
  }

  lemma TrimsAtTheEnds(s: string)
    ensures Trim(s) == if s != "" && IsSpace(s[0]) then Trim(s[1..])
                       else if s != "" && IsSpace(s[|s| - 1]) then Trim(s[..|s| - 1]) else s
  {
    hide IsSpace;
  }

  lemma SpaceInFront(s: string, front: string, middle: string, back: string)
    requires s != "" && IsSpace(s[0]) && s[1..] == front + middle + back && AllSpaces(front)
    ensures s == [s[0]] + front + middle + back && AllSpaces([s[0]] + front)
  {
    hide IsSpace;
    assert s == [s[0]] + s[1..];
  }

  lemma SpaceBehind(s: string, front: string, middle: string, back: string)
    requires s != "" && IsSpace(s[|s| - 1]) && s[..|s| - 1] == front + middle + back && AllSpaces(back)
    ensures s == front + middle + (back + [s[|s| - 1]]) && AllSpaces(back + [s[|s| - 1]])
  {
    hide IsSpace;
    assert s == s[..|s| - 1] + [s[|s| - 1]];
  }

  lemma LoweredTwice(s: string)
    ensures Lower(Lower(s)) == Lower(s)
  {
  }

  /** The user is in: a member, with every live vault of the organization shared and queued. */
  predicate Joined(db: Db, org: OrgId, user: UserId) {
    && (org, user) in db.members
    && (forall v | v in LiveVaultIdsOf(db.vaults, org) :: db.vaults[v].sharedAt.Some? && v in db.refreshes)
  }

  predicate MayRespond(db: Db, email: Email, id: InvitationId, accept: bool, enabled: bool, now: int) {
    && id in db.invitations && Lower(db.invitations[id].email) == Lower(email)
    && var invite := db.invitations[id];
       || invite.status.Accepted?
       || (&& invite.status.Invited? && now < invite.expiresAt
           && (accept ==>
                 && enabled && (invite.org, invite.inviter) in db.members
                 && (|| db.members[(invite.org, invite.inviter)] == Owner
                     || (db.members[(invite.org, invite.inviter)] == Admin && invite.role != Admin))))
  }

  /** An accepted invitation is answered again without effect. */
  lemma RespondMeans(db: Db, user: UserId, email: Email, id: InvitationId, accept: bool, enabled: bool, now: int, revision: Revision)
    ensures var (after, ok) := RespondOutcome(db, user, email, id, accept, enabled, now, revision);
            && (ok <==> MayRespond(db, email, id, accept, enabled, now))
            && (ok ==> id in after.invitations)
            && (!ok || db.invitations[id].status.Accepted? ==> after == db)
            && (ok && !db.invitations[id].status.Accepted? && accept ==>
                  after.invitations[id].status.Accepted? && Joined(after, db.invitations[id].org, user))
            && (ok && !db.invitations[id].status.Accepted? && !accept ==>
                  after == db.(invitations := db.invitations[id := db.invitations[id].(status := Rejected)]))
            && (ok && accept ==> RespondOutcome(after, user, email, id, accept, enabled, now, revision) == (after, true))
  {
    hide Lower;
    if id in db.invitations {
      AcceptanceIsAllOrNothing(db, id, db.invitations[id], user, now, revision, revision + 1);
      hide Queued, Shared;
    }
  }

  /** The user is out: no membership, and in no vault of the organization a usable grant, a wrapper or
      an open request. */
  predicate ShutOut(db: Db, org: OrgId, user: UserId) {
    && (org, user) !in db.members
    && (forall v | v in VaultIdsOf(db.vaults, org) ::
          && PasswordWrapper(db, v, user).None? && v in db.refreshes
          && ((v, user) in db.grants ==> db.grants[(v, user)].status.Revoked?))
    && (forall r | r in db.requests && db.requests[r].user == user && VaultIn(db, db.requests[r].vault, org) ::
          db.requests[r].status.Canceled?)
  }

  lemma ChangeMeans(db: Db, user: UserId, org: OrgId, target: UserId, newRole: Option<Role>, now: int, revision: Revision)
    ensures var (after, ok) := ChangeOutcome(db, user, org, target, newRole, now, revision);
            && (ok <==>
                  && (org, user) in db.members
                  && if (org, target) !in db.members then newRole.None?
                     else
                       var actor, role := db.members[(org, user)], db.members[(org, target)];
                       && role != Owner && newRole != Some(Owner)
                       && if newRole.Some? then actor == Owner
                          else user == target || actor == Owner || (actor == Admin && role == Member))
            && (!ok || (org, target) !in db.members ==> after == db)
            && (ok && newRole.Some? ==> after == db.(members := db.members[(org, target) := newRole.value]))
            && (ok && newRole.None? && (org, target) in db.members ==> ShutOut(after, org, target))
            && (forall k | k in db.members && k != (org, target) :: k in after.members && after.members[k] == db.members[k])
  {
    RemovalClosesEverything(db, org, target, now, revision, revision + 1);
    hide RemoveMember;
  }

  /** A request for the vault's key, made for the grant as it stands; no other one of the user is open. */
  predicate AwaitsApproval(db: Db, id: RequestId, user: UserId, vault: VaultId, publicKey: KeyPairId, now: int) {
    && OwnRequest(db, id, user, vault) && db.requests[id].status.Pending? && db.requests[id].publicKey == publicKey
    && db.requests[id].expiresAt == now + REQUEST_LIFETIME_MS
    && Enrolled(db, vault, user, db.requests[id].accessVersion)
    && (forall r | r in db.requests && r != id && db.requests[r].vault == vault && db.requests[r].user == user ::
          !OpenRequest(db.requests[r]))
  }

  lemma EnrollmentAdmits(db: Db, user: UserId, vault: VaultId)
    requires MayCall(db, user, vault, false, true)
    ensures var enrolled := EnsureEnrollment(db, vault, user);
            && MayCall(enrolled, user, vault, false, true) && GrantOf(enrolled, vault, user).Some?
            && !GrantOf(enrolled, vault, user).value.status.Revoked?
            && (HasActiveGrant(enrolled, user, vault) <==> HasActiveGrant(db, user, vault))
  {
  }

  predicate HasActiveGrant(db: Db, user: UserId, vault: VaultId) {
    (vault, user) in db.grants && db.grants[(vault, user)].status.Active?
  }

  lemma StartedOnMeans(db: Db, user: UserId, vault: VaultId, id: RequestId, publicKey: KeyPairId, now: int)
    requires MayCall(db, user, vault, false, true) && GrantOf(db, vault, user).Some?
    requires !GrantOf(db, vault, user).value.status.Revoked?
    ensures var (after, ok) := StartedOn(db, user, vault, id, publicKey, now);
            && (ok <==> (id in db.requests ==> OwnRequest(db, id, user, vault) && db.requests[id].publicKey == publicKey))
            && (ok ==> OwnRequest(after, id, user, vault) && after.requests[id].publicKey == publicKey)
            && (ok && id !in db.requests ==>
                  && AwaitsApproval(after, id, user, vault, publicKey, now)
                  && (after.requests[id].purpose.Enrollment? <==> !HasActiveGrant(db, user, vault)))
            && (!ok || id in db.requests ==> after == db)
            && after == db.(requests := after.requests)
  {
    hide MayCall;
  }

  lemma EnrollmentIsOwn(db: Db, user: UserId, vault: VaultId)
    ensures var enrolled := EnsureEnrollment(db, vault, user).grants;
            forall k | k in db.grants && k != (vault, user) :: k in enrolled && enrolled[k] == db.grants[k]
  {
  }

  /** Starting again with the same request changes nothing. A new request enrolls a user who has no
      active grant and recovers the key of one who has. */
  lemma StartMeans(db: Db, user: UserId, vault: VaultId, id: RequestId, publicKey: KeyPairId, enabled: bool, now: int)
    ensures var (after, ok) := StartOutcome(db, user, vault, id, publicKey, enabled, now);
            && (ok <==> MayCall(db, user, vault, false, true) && enabled
                        && (id in db.requests ==> OwnRequest(db, id, user, vault) && db.requests[id].publicKey == publicKey))
            && (ok ==> OwnRequest(after, id, user, vault) && after.requests[id].publicKey == publicKey)
            && (ok && id !in db.requests ==>
                  && AwaitsApproval(after, id, user, vault, publicKey, now)
                  && (after.requests[id].purpose.Enrollment? <==> !HasActiveGrant(db, user, vault)))
            && (!ok || id in db.requests ==> after == db || after == EnsureEnrollment(db, vault, user))
            && (ok ==> after.grants == EnsureEnrollment(db, vault, user).grants)
            && after == db.(grants := after.grants, requests := after.requests)
            && (forall k | k in db.grants && k != (vault, user) :: k in after.grants && after.grants[k] == db.grants[k])
  {
    if MayCall(db, user, vault, false, true) {
      EnrollmentAdmits(db, user, vault);
      StartedOnMeans(EnsureEnrollment(db, vault, user), user, vault, id, publicKey, now);
    }
    EnrollmentIsOwn(db, user, vault);
    hide MayCall, EnsureEnrollment, StartedOn, AwaitsApproval, HasActiveGrant, GrantOf;
  }

  predicate MayApproveCall(db: Db, user: UserId, vault: VaultId, id: RequestId, enabled: bool, now: int) {
    && MayCall(db, user, vault, true, false) && enabled
    && id in db.requests && db.requests[id].vault == vault && db.requests[id].user != user
    && MayCall(db, db.requests[id].user, vault, false, true) && MayApprove(db, id, user, now)
  }

  lemma ApproveMeans(db: Db, user: UserId, vault: VaultId, id: RequestId, transfer: TransferEnvelope, enabled: bool, now: int)
    ensures var (after, ok) := ApproveOutcome(db, user, vault, id, transfer, enabled, now);
            && (ok <==> MayApproveCall(db, user, vault, id, enabled, now))
            && (!ok ==> after == db)
            && (ok ==>
                  && after == db.(requests := after.requests) && id in after.requests && after.requests - {id} == db.requests - {id}
                  && after.requests[id]
                     == db.requests[id].(status := Approved, envelope := Some(transfer), approvedBy := Some(user))
                  && after.requests[id].user != user
                  && Enrolled(after, vault, after.requests[id].user, after.requests[id].accessVersion))
            && (ok ==> !MayApproveCall(after, user, vault, id, enabled, now))
  {
    hide MayCall;
  }

  /** Wrapper and request agree: the request is completed and the stored wrapper is the one sent. */
  predicate Agreed(db: Db, user: UserId, vault: VaultId, id: RequestId, envelope: PasswordEnvelope) {
    OwnRequest(db, id, user, vault) && db.requests[id].status.Completed? && PasswordWrapper(db, vault, user) == Some(envelope)
  }

  predicate MayCompleteCall(db: Db, user: UserId, vault: VaultId, id: RequestId, envelope: PasswordEnvelope, enabled: bool, now: int) {
    && MayCall(db, user, vault, false, true) && enabled && OwnRequest(db, id, user, vault)
    && if db.requests[id].status.Completed? then PasswordWrapper(db, vault, user) == Some(envelope)
       else
         && envelope.version == 2 && envelope.binding == Some(Binding(vault, user))
         && envelope.keyVersion == db.vaults[vault].keyVersion
         && db.requests[id].status.Approved? && now < db.requests[id].expiresAt
         && (vault, user) in db.grants && !db.grants[(vault, user)].status.Revoked?
         && db.grants[(vault, user)].accessVersion == db.requests[id].accessVersion
  }

  /** A completion that succeeds leaves wrapper, grant and request in agreement, and repeating it with
      the same wrapper succeeds and changes nothing. One that fails changes nothing. A wrapper that is
      not bound to this vault and user, or not of the vault's key version, never replaces another. */
  lemma CompleteMeans(db: Db, user: UserId, vault: VaultId, id: RequestId, envelope: PasswordEnvelope, enabled: bool, now: int,
                      revision: Revision, later: int, another: Revision)
    ensures var (after, ok) := CompleteOutcome(db, user, vault, id, envelope, enabled, now, revision);
            && (ok <==> MayCompleteCall(db, user, vault, id, envelope, enabled, now))
            && (!ok ==> after == db)
            && (ok ==>
                  && Agreed(after, user, vault, id, envelope)
                  && CompleteOutcome(after, user, vault, id, envelope, enabled, later, another) == (after, true))
            && (ok && db.requests[id].status.Completed? ==> after == db)
            && (ok && !db.requests[id].status.Completed? ==>
                  && (vault, user) in after.grants && after.grants[(vault, user)].status.Active?
                  && after.requests[id].envelope.None? && vault in after.refreshes
                  && (vault, user) in after.wrappers && after.wrappers[(vault, user)].envelope == envelope
                  && envelope.version == 2 && envelope.binding == Some(Binding(vault, user))
                  && envelope.keyVersion == db.vaults[vault].keyVersion)
            && (envelope.version != 2 || envelope.binding != Some(Binding(vault, user))
                || (vault in db.vaults && envelope.keyVersion != db.vaults[vault].keyVersion) ==>
                  after == db && (ok ==> db.requests[id].status.Completed?))
  {
    if OwnRequest(db, id, user, vault) {
      CompletionIsOnce(db, id, db.requests[id], envelope, now, envelope, now);
    }
    hide MayComplete;
  }

  class Service {
    const store: DrizzleSharingStore

    constructor (store: DrizzleSharingStore)
      ensures this.store == store
    {
      this.store := store;
    }

    /** Guards every vault call: a live vault, a membership, managing if asked, and a grant that is
        active or, if that will do, still awaiting its key. */
    method RequireVault(user: UserId, vault: VaultId, manage: bool, pending: bool)
      returns (result: Result<(Vault, Option<Grant>), SharingError>)
      ensures result.Ok? <==>
                && vault in store.vaults && store.vaults[vault].deletedAt.None?
                && (store.vaults[vault].org, user) in store.members
                && (manage ==> store.members[(store.vaults[vault].org, user)] != Member)
                && (pending || ((vault, user) in store.grants && store.grants[(vault, user)].status.Active?))
      ensures result.Ok? ==> result.value == (store.vaults[vault], GrantOf(store.Contents(), vault, user))
    {
      if vault !in store.vaults || store.vaults[vault].deletedAt.Some? {
        return Err(NotFound);
      }
      var row := store.vaults[vault];
      if (row.org, user) !in store.members || (manage && !IsManager(store.members[(row.org, user)])) {
        return Err(Forbidden);
      }
      var grant := GrantOf(store.Contents(), vault, user);
      var status := EnrollmentStatus(grant);
      if !status.Active? && !(pending && status.PendingKey?) {
        return Err(Forbidden);
      }
      result := Ok((row, grant));
    }

    method Invite(user: UserId, org: OrgId, email: Email, role: Role, memberLimit: nat, sharingEnabled: bool, freshId: InvitationId,
                  now: int)
      returns (result: Result<InvitationId, SharingError>)
      requires freshId !in store.invitations && !role.Owner?
      modifies store
      ensures result.Ok? <==>
                var db := old(store.Contents());
                && sharingEnabled && (org, user) in db.members
                && (db.members[(org, user)] == Owner || (db.members[(org, user)] == Admin && role == Member))
                && MayInvite(db, org, Lower(Trim(email)), memberLimit, now)
      ensures result.Ok? ==>
                && result.value == freshId
                && InvitedOne(old(store.Contents()), store.Contents(), freshId, org, Lower(Trim(email)), memberLimit, now)
      ensures result.Err? ==> store.Contents() == old(store.Contents())
      ensures (store.Contents(), result.Ok?)
           == InviteOutcome(old(store.Contents()), user, org, email, role, memberLimit, sharingEnabled, freshId, now)
    {
      InviteMeans(store.Contents(), user, org, email, role, memberLimit, sharingEnabled, freshId, now);
      hide MayInvite, InvitedOne, Trim, Lower;
      if (org, user) !in store.members || !IsManager(store.members[(org, user)]) {
        return Err(Forbidden);
      }
      if role.Admin? && !store.members[(org, user)].Owner? {
        return Err(Forbidden);
      }
      if !sharingEnabled {
        return Err(SharingUnavailable);
      }
      var created := store.CreateInvitation(freshId, org, Lower(Trim(email)), role, user, memberLimit, now);
      if !created {
        return Err(InvitationConflict);
      }
      result := Ok(freshId);
    }

    method Respond(user: UserId, email: Email, id: InvitationId, accept: bool, sharingEnabled: bool, now: int, revision: Revision)
      returns (result: Result<OrgId, SharingError>)
      modifies store
      ensures result.Ok? <==> MayRespond(old(store.Contents()), email, id, accept, sharingEnabled, now)
      ensures result.Ok? ==> id in store.invitations && result.value == store.invitations[id].org
      ensures result.Ok? && accept && !old(store.Contents()).invitations[id].status.Accepted? ==>
                store.invitations[id].status.Accepted? && Joined(store.Contents(), result.value, user)
      ensures result.Err? ==> store.Contents() == old(store.Contents())
      ensures (store.Contents(), result.Ok?)
           == RespondOutcome(old(store.Contents()), user, email, id, accept, sharingEnabled, now, revision)
    {
      RespondMeans(store.Contents(), user, email, id, accept, sharingEnabled, now, revision);
      hide Lower, LiveInvitation, Joined, Queued, Shared;
      if id !in store.invitations || Lower(store.invitations[id].email) != Lower(email) {
        return Err(Forbidden);
      }
      var invite := store.invitations[id];
      if invite.status.Accepted? {
        return Ok(invite.org);
      }
      if !LiveInvitation(store.Contents(), id, now) {
        return Err(InvitationUnavailable);
      }
      if !accept {
        store.SetInvitationStatus(id, Rejected);
        return Ok(invite.org);
      }
      if !sharingEnabled {
        return Err(SharingUnavailable);
      }
      var k := (invite.org, invite.inviter);
      if k !in store.members || !IsManager(store.members[k]) || (invite.role.Admin? && !store.members[k].Owner?) {
        return Err(Forbidden);
      }
      var accepted := store.AcceptInvitation(id, invite, user, now, revision, revision + 1);
      if !accepted {
        return Err(InvitationChanged);
      }
      result := Ok(invite.org);
    }

    method ChangeMember(user: UserId, org: OrgId, target: UserId, newRole: Option<Role>, now: int, revision: Revision)
      returns (result: Result<(), SharingError>)
      requires newRole != Some(Owner)
      modifies store
      ensures result.Ok? <==>
                var members := old(store.Contents()).members;
                && (org, user) in members
                && if (org, target) !in members then newRole.None?
                   else
                     var actor, role := members[(org, user)], members[(org, target)];
                     && role != Owner
                     && if newRole.Some? then actor == Owner
                        else user == target || actor == Owner || (actor == Admin && role == Member)
      ensures result.Ok? && newRole.None? && (org, target) in old(store.Contents()).members ==>
                ShutOut(store.Contents(), org, target)
      ensures result.Ok? && newRole.Some? ==> (org, target) in store.members && store.members[(org, target)] == newRole.value
      ensures (org, target) in old(store.Contents()).members && old(store.Contents()).members[(org, target)].Owner? ==> result.Err?
      ensures result.Err? ==> store.Contents() == old(store.Contents())
      ensures (store.Contents(), result.Ok?) == ChangeOutcome(old(store.Contents()), user, org, target, newRole, now, revision)
    {
      ChangeMeans(store.Contents(), user, org, target, newRole, now, revision);
      hide ShutOut, RemoveMember;
      if (org, user) !in store.members {
        return Err(Forbidden);
      }
      var actor := store.members[(org, user)];
      if (org, target) !in store.members {
        return if newRole.None? then Ok(()) else Err(Forbidden);
      }
      var role := store.members[(org, target)];
      if role.Owner? {
        return Err(OwnerProtected);
      }
      if newRole.Some? {
        if !actor.Owner? {
          return Err(Forbidden);
        }
        store.ChangeOrganizationRole(org, target, newRole.value);
      } else {
        if user != target && (!IsManager(actor) || (role.Admin? && !actor.Owner?)) {
          return Err(Forbidden);
        }
        store.RemoveOrganizationMember(org, target, now, revision, revision + 1);
      }
      result := Ok(());
    }

    method StartKeyRequest(user: UserId, vault: VaultId, id: RequestId, publicKey: KeyPairId, sharingEnabled: bool, now: int)
      returns (result: Result<KeyRequest, SharingError>)
      modifies store
      ensures result.Ok? ==>
                && OwnRequest(store.Contents(), id, user, vault) && store.requests[id] == result.value
                && result.value.publicKey == publicKey
      ensures result.Ok? && id !in old(store.Contents()).requests ==>
                AwaitsApproval(store.Contents(), id, user, vault, publicKey, now)
      ensures result.Err? ==>
                store.Contents() == old(store.Contents()) || store.Contents() == EnsureEnrollment(old(store.Contents()), vault, user)
      ensures (store.Contents(), result.Ok?)
           == StartOutcome(old(store.Contents()), user, vault, id, publicKey, sharingEnabled, now)
    {
      StartMeans(store.Contents(), user, vault, id, publicKey, sharingEnabled, now);
      hide LiveVault, IsMember, IsVaultManager, AwaitsApproval;
      var required := RequireVault(user, vault, false, true);
      if required.Err? {
        return Err(required.error);
      }
      if !sharingEnabled {
        return Err(SharingUnavailable);
      }
      store.EnsureVaultEnrollment(vault, user);
      // Nothing runs in between here, so the second guard cannot fail; a thread keeps its failing branch.
      var again := RequireVault(user, vault, false, true);
      var grant := again.value.1;
      if id in store.requests {
        var existing := store.requests[id];
        if existing.user != user || existing.vault != vault || existing.publicKey != publicKey {
          return Err(Forbidden);
        }
        return Ok(existing);
      }
      var request := KeyRequest(vault, user, if grant.Some? then grant.value.accessVersion else 0, publicKey,
                                if EnrollmentStatus(grant).PendingKey? then Enrollment else Recovery, Pending, None, None, now,
                                now + REQUEST_LIFETIME_MS);
      var created := store.CreateKeyRequest(id, request);
      result := Ok(request);
    }

    method ApproveKeyRequest(user: UserId, vault: VaultId, id: RequestId, transfer: TransferEnvelope, sharingEnabled: bool, now: int)
      returns (result: Result<(), SharingError>)
      modifies store
      ensures result.Ok? <==> MayApproveCall(old(store.Contents()), user, vault, id, sharingEnabled, now)
      ensures result.Ok? ==>
                && id in store.requests && store.requests[id].status.Approved? && store.requests[id].envelope == Some(transfer)
                && store.requests[id].approvedBy == Some(user) && store.requests[id].user != user
                && Enrolled(store.Contents(), vault, store.requests[id].user, store.requests[id].accessVersion)
      ensures result.Err? ==> store.Contents() == old(store.Contents())
      ensures (store.Contents(), result.Ok?)
           == ApproveOutcome(old(store.Contents()), user, vault, id, transfer, sharingEnabled, now)
    {
      ApproveMeans(store.Contents(), user, vault, id, transfer, sharingEnabled, now);
      hide LiveVault, IsMember, IsVaultManager, MayApprove, Enrolled;
      var required := RequireVault(user, vault, true, false);
      if required.Err? {
        return Err(required.error);
      }
      if !sharingEnabled {
        return Err(SharingUnavailable);
      }
      if id !in store.requests || store.requests[id].vault != vault || store.requests[id].user == user {
        return Err(Forbidden);
      }
      var recipient := RequireVault(store.requests[id].user, vault, false, true);
      if recipient.Err? {
        return Err(recipient.error);
      }
      var approved := store.ApproveKeyRequest(id, user, transfer, now);
      if !approved {
        return Err(RequestChanged);
      }
      result := Ok(());
    }

    method CompleteKeyRequest(user: UserId, vault: VaultId, id: RequestId, envelope: PasswordEnvelope, sharingEnabled: bool,
                              now: int, revision: Revision)
      returns (result: Result<(), SharingError>)
      modifies store
      ensures result.Ok? <==> MayCompleteCall(old(store.Contents()), user, vault, id, envelope, sharingEnabled, now)
      ensures result.Ok? ==> Agreed(store.Contents(), user, vault, id, envelope)
      ensures result.Ok? && !old(store.Contents()).requests[id].status.Completed? ==>
                (vault, user) in store.grants && store.grants[(vault, user)].status.Active? && vault in store.refreshes
      ensures result.Ok? && !old(store.Contents()).requests[id].status.Completed? ==>
                && (vault, user) in store.wrappers && store.wrappers[(vault, user)].envelope == envelope
                && envelope.version == 2 && envelope.binding == Some(Binding(vault, user))
                && vault in old(store.Contents()).vaults && envelope.keyVersion == old(store.Contents()).vaults[vault].keyVersion
      ensures result.Err? || old(store.Contents()).requests[id].status.Completed? ==> store.Contents() == old(store.Contents())
      ensures (store.Contents(), result.Ok?)
           == CompleteOutcome(old(store.Contents()), user, vault, id, envelope, sharingEnabled, now, revision)
    {
      CompleteMeans(store.Contents(), user, vault, id, envelope, sharingEnabled, now, revision, now, revision);
      hide LiveVault, IsMember, IsVaultManager, AcceptableEnvelope, MayComplete, Agreed;
      var required := RequireVault(user, vault, false, true);
      if required.Err? {
        return Err(required.error);
      }
      if !sharingEnabled {
        return Err(SharingUnavailable);
      }
      if id !in store.requests || store.requests[id].user != user || store.requests[id].vault != vault {
        return Err(Forbidden);
      }
      var request := store.requests[id];
      if request.status.Completed? {
        if PasswordWrapper(store.Contents(), vault, user) != Some(envelope) {
          return Err(PasswordChanged);
        }
        return Ok(());
      }
      if !AcceptableEnvelope(envelope, vault, user, required.value.0.keyVersion) {
        return Err(InvalidWrapper);
      }
      var completed := store.CompleteKeyRequest(id, request, envelope, now);
      if !completed {
        return Err(RequestChanged);
      }
      store.QueueRefresh(vault, revision + 2);
      result := Ok(());
    }
  }
}
