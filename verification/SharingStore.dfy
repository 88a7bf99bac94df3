/** The store's statements, run one after another on the tables. Each statement of a batch tests
    its guard on what the statements before it left, and each batch still amounts to the one
    guarded step of SharingTables. */
module SharingStore {
  import opened Wrappers
  import opened VaultCrypto
  import opened SharingTables

  class DrizzleSharingStore {
    var members: map<(OrgId, UserId), Role>
    var emails: map<UserId, Email>
    var vaults: map<VaultId, Vault>
    var grants: map<(VaultId, UserId), Grant>
    var wrappers: map<(VaultId, UserId), Wrapper>
    var requests: map<RequestId, KeyRequest>
    var invitations: map<InvitationId, Invitation>
    var refreshes: map<VaultId, Revision>
    var audit: seq<Delivery>

    function Contents(): Db
      reads this
    {
      Db(members, emails, vaults, grants, wrappers, requests, invitations, refreshes, audit)
    }

    constructor (db: Db)
      ensures Contents() == db
    {
      members, emails, vaults, grants, wrappers := db.members, db.emails, db.vaults, db.grants, db.wrappers;
      requests, invitations, refreshes, audit := db.requests, db.invitations, db.refreshes, db.audit;
    }

    method CreateInvitation(id: InvitationId, org: OrgId, email: Email, role: Role, inviter: UserId, memberLimit: nat, now: int)
      returns (created: bool)
      requires id !in invitations
      modifies this`invitations
      ensures (Contents(), created)
           == SharingTables.CreateInvitation(old(Contents()), id, org, email, role, inviter, memberLimit, now)
    {
      created := MayInvite(Contents(), org, email, memberLimit, now);
      if created {
        invitations := invitations[id := Invitation(org, email, role, Invited, now + REQUEST_LIFETIME_MS, now, inviter)];
      }
    }

    method SetInvitationStatus(id: InvitationId, status: InvitationStatus)
      modifies this`invitations
      ensures Contents() == SharingTables.SetInvitationStatus(old(Contents()), id, status)
    {
      if id in invitations && invitations[id].status.Invited? {
        invitations := invitations[id := invitations[id].(status := status)];
      }
    }

    /** Four statements, each guarded by the invitation still being pending. */
    method AcceptInvitation(id: InvitationId, invite: Invitation, user: UserId, now: int, inserted: Revision, replaced: Revision)
      returns (accepted: bool)
      modifies this
      ensures (Contents(), accepted)
           == SharingTables.AcceptInvitation(old(Contents()), id, invite, user, now, inserted, replaced)
    {
      hide Shared, Queued, LiveVaultIdsOf;
      if LiveInvitation(Contents(), id, now) && (invite.org, user) !in members {
        members := members[(invite.org, user) := invite.role];
      }
      if LiveInvitation(Contents(), id, now) {
        vaults := Shared(vaults, LiveVaultIdsOf(vaults, invite.org), now);
      }
      if LiveInvitation(Contents(), id, now) {
        SharingKeepsVaults(old(vaults), invite.org, now);
        refreshes := Queued(refreshes, LiveVaultIdsOf(vaults, invite.org), inserted, replaced);
      }
      accepted := LiveInvitation(Contents(), id, now);
      if accepted {
        invitations := invitations[id := invitations[id].(status := Accepted)];
      }
    }

    method ClaimInvitationDelivery(id: InvitationId, org: OrgId, now: int) returns (claimed: bool)
      modifies this`audit
      ensures (Contents(), claimed) == ClaimDelivery(old(Contents()), id, org, now)
    {
      claimed := !DeliveredSince(audit, id, now - MINUTE_MS) && RecentDeliveries(audit, org, now - HOUR_MS) < 20;
      if claimed {
        audit := audit + [Delivery(org, id, now)];
      }
    }

    /** An insert whose conflict clause updates only a revoked grant. */
    method EnsureVaultEnrollment(v: VaultId, u: UserId)
      modifies this`grants
      ensures Contents() == EnsureEnrollment(old(Contents()), v, u)
    {
      if LiveVault(Contents(), v) && IsMember(Contents(), v, u) {
        if (v, u) !in grants {
          grants := grants[(v, u) := Grant(1, false, PendingKey, None)];
        } else if grants[(v, u)].status.Revoked? {
          var g := grants[(v, u)];
          grants := grants[(v, u) := g.(status := PendingKey, revokedAt := None, accessVersion := g.accessVersion + 1)];
        }
      }
    }

    method ChangeOrganizationRole(org: OrgId, u: UserId, role: Role)
      modifies this`members
      ensures Contents() == ChangeRole(old(Contents()), org, u, role)
    {
      if (org, u) in members && !members[(org, u)].Owner? {
        members := members[(org, u) := role];
      }
    }

    /** Five statements: grants, wrappers, requests, refreshes and at last the membership. */
    method RemoveOrganizationMember(org: OrgId, u: UserId, now: int, inserted: Revision, replaced: Revision)
      modifies this
      ensures Contents() == RemoveMember(old(Contents()), org, u, now, inserted, replaced)
    {
      hide RevokeGrants, RevokeWrappers, CancelRequests, Queued, VaultIdsOf;
      grants := RevokeGrants(grants, VaultIdsOf(vaults, org), u, now);
      wrappers := RevokeWrappers(wrappers, VaultIdsOf(vaults, org), u, now);
      requests := CancelRequests(requests, VaultIdsOf(vaults, org), u);
      refreshes := Queued(refreshes, VaultIdsOf(vaults, org), inserted, replaced);
      members := members - {(org, u)};
    }

    /** Two statements; a used id fails the second and rolls the first back. */
    method CreateKeyRequest(id: RequestId, row: KeyRequest) returns (created: bool)
      modifies this`requests
      ensures (Contents(), created) == SharingTables.CreateKeyRequest(old(Contents()), id, row)
    {
      var before := requests;
      requests := CancelOpen(requests, row.vault, row.user);
      created := id !in requests;
      requests := if created then requests[id := row] else before;
    }

    method ApproveKeyRequest(id: RequestId, approvedBy: UserId, envelope: TransferEnvelope, now: int) returns (approved: bool)
      modifies this`requests
      ensures (Contents(), approved) == SharingTables.ApproveKeyRequest(old(Contents()), id, approvedBy, envelope, now)
    {
      approved := MayApprove(Contents(), id, approvedBy, now);
      if approved {
        requests := requests[id := requests[id].(status := Approved, approvedBy := Some(approvedBy), envelope := Some(envelope))];
      }
    }

    /** Three statements, each guarded by the request still being approved and its grant current. */
    method CompleteKeyRequest(id: RequestId, request: KeyRequest, envelope: PasswordEnvelope, now: int) returns (completed: bool)
      modifies this
      ensures (Contents(), completed) == SharingTables.CompleteKeyRequest(old(Contents()), id, request, envelope, now)
    {
      var k := (request.vault, request.user);
      if MayComplete(Contents(), id, request, now) {
        wrappers := wrappers[k := WrittenWrapper(Contents(), request.vault, request.user, envelope)];
      }
      if k in grants && grants[k].accessVersion == request.accessVersion && MayComplete(Contents(), id, request, now) {
        grants := grants[k := grants[k].(status := Active, revokedAt := None)];
      }
      completed := MayComplete(Contents(), id, request, now);
      if completed {
        requests := requests[id := requests[id].(status := Completed, envelope := None)];
      }
    }

    /** Two statements under the same authorization. */
    method UpsertPasswordWrapper(u: UserId, v: VaultId, envelope: PasswordEnvelope) returns (written: bool)
      modifies this
      ensures (Contents(), written) == SharingTables.UpsertPasswordWrapper(old(Contents()), u, v, envelope)
    {
      written := MayChangePassword(Contents(), u, v, envelope);
      if written {
        wrappers := wrappers[(v, u) := WrittenWrapper(Contents(), v, u, envelope)];
      }
      if MayChangePassword(Contents(), u, v, envelope) {
        requests := CancelOpen(requests, v, u);
      }
    }

    method PruneExpiredRequests(now: int)
      modifies this`requests
      ensures Contents() == PruneExpired(old(Contents()), now)
    {
      requests := map r | r in requests ::
        if requests[r].expiresAt <= now && OpenRequest(requests[r]) then CanceledRequest(requests[r]) else requests[r];
    }

    method QueueRefresh(v: VaultId, revision: Revision)
      modifies this`refreshes
      ensures Contents() == SharingTables.QueueRefresh(old(Contents()), v, revision)
    {
      refreshes := refreshes[v := revision];
    }

    method FinishRefresh(v: VaultId, revision: Revision)
      modifies this`refreshes
      ensures Contents() == SharingTables.FinishRefresh(old(Contents()), v, revision)
    {
      if v in refreshes && refreshes[v] == revision {
        refreshes := refreshes - {v};
      }
    }

    /** Three statements: the later two select the vault row the first one inserted, if it did. */
    method CreateVaultForUser(v: VaultId, org: OrgId, u: UserId, envelope: PasswordEnvelope, maxVaults: nat, now: int)
      returns (created: bool)
      requires v !in vaults && (v, u) !in grants && (v, u) !in wrappers
      modifies this
      ensures (Contents(), created) == CreateVault(old(Contents()), v, org, u, envelope, maxVaults, now)
    {
      if && (maxVaults == 0 || |LiveVaultIdsOf(vaults, org)| < maxVaults)
         && (org, u) in members && IsManager(members[(org, u)]) {
        var sharedAt := if |MembersOf(Contents(), org)| > 1 then Some(now) else None;
        vaults := vaults[v := Vault(org, sharedAt, envelope.keyVersion, None)];
      }
      if v in vaults {
        wrappers := wrappers[(v, u) := Wrapper(envelope.keyVersion, envelope, None)];
      }
      if v in vaults {
        grants := grants[(v, u) := Grant(1, true, Active, None)];
      }
      created := v in vaults;
    }
  }

  /** Marking vaults shared leaves the same vaults live. */
  lemma SharingKeepsVaults(vaults: map<VaultId, Vault>, org: OrgId, now: int)
    ensures LiveVaultIdsOf(Shared(vaults, LiveVaultIdsOf(vaults, org), now), org) == LiveVaultIdsOf(vaults, org)
  {
  }

  /** Accepting leaves the user a member and every live vault of the organization shared and queued,
      or leaves everything as it was: exactly when the invitation was pending and unexpired. */
  lemma AcceptanceIsAllOrNothing(db: Db, id: InvitationId, invite: Invitation, user: UserId, now: int, inserted: Revision,
                                 replaced: Revision)
    ensures var (after, accepted) := AcceptInvitation(db, id, invite, user, now, inserted, replaced);
            && (accepted <==> LiveInvitation(db, id, now))
            && (!accepted ==> after == db)
            && (accepted ==>
                  && (invite.org, user) in after.members
                  && after.invitations[id].status.Accepted?
                  && (forall v | LiveVault(after, v) && after.vaults[v].org == invite.org ::
                        after.vaults[v].sharedAt.Some? && v in after.refreshes)
                  && !AcceptInvitation(after, id, invite, user, now, inserted, replaced).1)
  {
  }

  /** Removal leaves no way in: no usable grant, wrapper or open request in any of the vaults. */
  lemma RemovalClosesEverything(db: Db, org: OrgId, u: UserId, now: int, inserted: Revision, replaced: Revision)
    ensures var after := RemoveMember(db, org, u, now, inserted, replaced);
            && (org, u) !in after.members
            && (forall v | VaultIn(after, v, org) ::
                  && v in after.refreshes
                  && PasswordWrapper(after, v, u).None?
                  && ((v, u) in after.grants ==>
                        && after.grants[(v, u)].status.Revoked?
                        && (v, u) in db.grants && db.grants[(v, u)].accessVersion <= after.grants[(v, u)].accessVersion
                        && (!db.grants[(v, u)].status.Revoked? ==>
                              db.grants[(v, u)].accessVersion < after.grants[(v, u)].accessVersion)))
            && (forall r | r in after.requests && after.requests[r].user == u && VaultIn(after, after.requests[r].vault, org) ::
                  after.requests[r].status.Canceled? && after.requests[r].envelope.None?)
            && (forall k | k in db.grants && (k.1 != u || !VaultIn(db, k.0, org)) :: after.grants[k] == db.grants[k])
            && (forall k | k in db.members && k != (org, u) :: k in after.members && after.members[k] == db.members[k])
  {
  }

  /** A request completes exactly once, and only while its grant still has the version it was made for. */
  lemma CompletionIsOnce(db: Db, id: RequestId, request: KeyRequest, envelope: PasswordEnvelope, now: int, again: PasswordEnvelope,
                         later: int)
    ensures var (after, completed) := CompleteKeyRequest(db, id, request, envelope, now);
            && (completed <==> MayComplete(db, id, request, now))
            && (!completed ==> after == db)
            && (completed ==>
                  && PasswordWrapper(after, request.vault, request.user) == Some(envelope)
                  && Enrolled(after, request.vault, request.user, request.accessVersion)
                  && after.grants[(request.vault, request.user)].status.Active?
                  && after.requests[id].status.Completed? && after.requests[id].envelope.None?
                  && CompleteKeyRequest(after, id, request, again, later) == (after, false))
  {
  }

  /** An approval ends with either party's place in the organization, and with the approver's rank. */
  lemma ApprovalEndsWithItsParties(db: Db, id: RequestId, approver: UserId, org: OrgId, at: int, inserted: Revision,
                                   replaced: Revision, now: int)
    requires id in db.requests && VaultIn(db, db.requests[id].vault, org)
    ensures !MayApprove(RemoveMember(db, org, approver, at, inserted, replaced), id, approver, now)
    ensures !MayApprove(RemoveMember(db, org, db.requests[id].user, at, inserted, replaced), id, approver, now)
    ensures !MayComplete(RemoveMember(db, org, db.requests[id].user, at, inserted, replaced), id, db.requests[id], now)
    ensures (org, approver) in db.members && !db.members[(org, approver)].Owner? ==>
              !MayApprove(ChangeRole(db, org, approver, Member), id, approver, now)
  {
    hide RevokeWrappers, Queued;
    var vaults := VaultIdsOf(db.vaults, org);
    assert db.requests[id].vault in vaults;
  }

  /** Pruning closes exactly the expired open requests, and with them every expired ciphertext. */
  lemma PruningClosesExpired(db: Db, now: int)
    requires forall r | r in db.requests :: db.requests[r].envelope.Some? ==> OpenRequest(db.requests[r])
    ensures var after := PruneExpired(db, now);
            && (forall r | r in after.requests && after.requests[r].expiresAt <= now ::
                  !OpenRequest(after.requests[r]) && after.requests[r].envelope.None?)
            && (forall r | r in db.requests && (db.requests[r].expiresAt > now || !OpenRequest(db.requests[r])) ::
                  after.requests[r] == db.requests[r])
  {
  }
}
