/** What each store operation does to the rows, column by column and with the constants written out:
    when it happens, what it writes, and that every other row stays as it was. */
module SharingEffects {
  import opened Wrappers
  import opened VaultCrypto
  import opened SharingTables

  // ------------------------------------------------------------- invitations

  /** Letters A to Z become small; nothing else changes. */
  lemma LoweredLetters(s: string)
    ensures |Lower(s)| == |s|
    ensures forall i | 0 <= i < |s| ::
              if 'A' <= s[i] <= 'Z' then 'a' <= Lower(s)[i] <= 'z' && Lower(s)[i] as int == s[i] as int + 32
              else Lower(s)[i] == s[i]
  {
  }

  /** The invitations of an organization that are pending and unexpired: each holds a seat. */
  function HeldSeats(db: Db, org: OrgId, now: int): set<InvitationId> {
    set i | i in db.invitations && db.invitations[i].org == org && db.invitations[i].status == Invited
            && now < db.invitations[i].expiresAt
  }

  function TakenSeats(db: Db, org: OrgId): set<UserId> {
    set m | m in db.members && m.0 == org :: m.1
  }

  /** A free seat and an email that no member and no live invitation of the organization has are all an
      invitation needs; it then lives for 48 hours. */
  lemma InvitesExactly(db: Db, id: InvitationId, org: OrgId, email: Email, role: Role, inviter: UserId, memberLimit: nat, now: int)
    ensures var (after, created) := CreateInvitation(db, id, org, email, role, inviter, memberLimit, now);
            && (created <==>
                  && id !in db.invitations
                  && (forall i | i in HeldSeats(db, org, now) :: Lower(db.invitations[i].email) != email)
                  && (forall u | u in TakenSeats(db, org) && u in db.emails :: Lower(db.emails[u]) != email)
                  && (memberLimit == 0 || |TakenSeats(db, org)| + |HeldSeats(db, org, now)| < memberLimit))
            && after == if created
                        then db.(invitations := db.invitations[id := Invitation(org, email, role, Invited, now + 172_800_000,
                                                                                now, inviter)])
                        else db
  {
    assert HeldSeats(db, org, now) == LiveInvitationsOf(db, org, now);
    assert TakenSeats(db, org) == MembersOf(db, org);
    hide Lower;
  }

  lemma AnswersExactly(db: Db, id: InvitationId, status: InvitationStatus)
    ensures SetInvitationStatus(db, id, status)
         == if id in db.invitations && db.invitations[id].status == Invited
            then db.(invitations := db.invitations[id := db.invitations[id].(status := status)]) else db
  {
  }

  /** A vault of the organization that is not deleted. */
  predicate Present(db: Db, v: VaultId, org: OrgId) {
    v in db.vaults && db.vaults[v].org == org && db.vaults[v].deletedAt == None
  }

  predicate Pending(db: Db, id: InvitationId, now: int) {
    id in db.invitations && db.invitations[id].status == Invited && now < db.invitations[id].expiresAt
  }

  /** Accepting makes the user a member in the invited role, or leaves the role of one who is a member
      already; shares each present vault that was not shared, and queues every one of them. */
  lemma AcceptsExactly(db: Db, id: InvitationId, invite: Invitation, user: UserId, now: int, inserted: Revision, replaced: Revision)
    ensures var (after, accepted) := AcceptInvitation(db, id, invite, user, now, inserted, replaced);
            && (accepted <==> Pending(db, id, now))
            && (!accepted ==> after == db)
            && (accepted ==>
                  && after.members == (if (invite.org, user) in db.members then db.members
                                       else db.members[(invite.org, user) := invite.role])
                  && after.invitations == db.invitations[id := db.invitations[id].(status := Accepted)]
                  && after.vaults.Keys == db.vaults.Keys
                  && (forall v | v in db.vaults ::
                        after.vaults[v] == if Present(db, v, invite.org) && db.vaults[v].sharedAt == None
                                           then db.vaults[v].(sharedAt := Some(now)) else db.vaults[v])
                  && (forall v :: v in after.refreshes <==> v in db.refreshes || Present(db, v, invite.org))
                  && (forall v | v in after.refreshes ::
                        after.refreshes[v] == if !Present(db, v, invite.org) then db.refreshes[v]
                                              else if v in db.refreshes then replaced else inserted)
                  && after == db.(members := after.members, invitations := after.invitations, vaults := after.vaults,
                                  refreshes := after.refreshes))
  {
  }

  function DeliveredWithinTheHour(audit: seq<Delivery>, org: OrgId, now: int): set<nat> {
    set i: nat | i < |audit| && audit[i].org == org && now - 3_600_000 < audit[i].createdAt
  }

  lemma {:induction false} CountedDeliveries(audit: seq<Delivery>, org: OrgId, now: int)
    ensures RecentDeliveries(audit, org, now - HOUR_MS) == |DeliveredWithinTheHour(audit, org, now)|
  {
    if audit != [] {
      var n := |audit| - 1;
      CountedDeliveries(audit[..n], org, now);
      var before := DeliveredWithinTheHour(audit[..n], org, now);
      assert n !in before;
      if audit[n].org == org && now - 3_600_000 < audit[n].createdAt {
        assert DeliveredWithinTheHour(audit, org, now) == before + {n};
      } else {
        assert DeliveredWithinTheHour(audit, org, now) == before;
      }
    } else {
      assert DeliveredWithinTheHour(audit, org, now) == {};
    }
  }

  /** A delivery is claimed exactly if the invitation had none for a minute and the organization fewer
      than twenty for an hour. */
  lemma ClaimsExactly(db: Db, id: InvitationId, org: OrgId, now: int)
    ensures var (after, claimed) := ClaimDelivery(db, id, org, now);
            && (claimed <==>
                  && (forall i | 0 <= i < |db.audit| && db.audit[i].target == id :: db.audit[i].createdAt <= now - 60_000)
                  && |DeliveredWithinTheHour(db.audit, org, now)| < 20)
            && after == if claimed then db.(audit := db.audit + [Delivery(org, id, now)]) else db
  {
    CountedDeliveries(db.audit, org, now);
    hide RecentDeliveries;
  }

  // ------------------------------------------------------ members and grants

  /** A member of a present vault's organization gets a grant awaiting its key: at version one at first,
      one version later after a revocation; one that is not revoked stays. */
  lemma EnrollsExactly(db: Db, v: VaultId, u: UserId)
    ensures var after := EnsureEnrollment(db, v, u);
            var may := v in db.vaults && db.vaults[v].deletedAt == None && (db.vaults[v].org, u) in db.members;
            && (!may ==> after == db)
            && (may && (v, u) !in db.grants ==> after == db.(grants := db.grants[(v, u) := Grant(1, false, PendingKey, None)]))
            && (may && (v, u) in db.grants && db.grants[(v, u)].status != Revoked ==> after == db)
            && (may && (v, u) in db.grants && db.grants[(v, u)].status == Revoked ==>
                  after == db.(grants := db.grants[(v, u) := Grant(db.grants[(v, u)].accessVersion + 1,
                                                                   db.grants[(v, u)].isCreator, PendingKey, None)]))
  {
  }

  lemma RoleChangesExactly(db: Db, org: OrgId, u: UserId, role: Role)
    ensures ChangeRole(db, org, u, role)
         == if (org, u) in db.members && db.members[(org, u)] != Owner
            then db.(members := db.members[(org, u) := role]) else db
  {
  }

  /** Removal touches the user's rows in the organization's vaults, deleted ones too, and no others: a
      grant not yet revoked moves to its next version, wrappers are revoked now, requests canceled
      without their ciphertexts, and the vaults queued. */
  lemma RemovesExactly(db: Db, org: OrgId, u: UserId, now: int, inserted: Revision, replaced: Revision)
    ensures var after := RemoveMember(db, org, u, now, inserted, replaced);
            && after.members == db.members - {(org, u)}
            && after.grants.Keys == db.grants.Keys && after.wrappers.Keys == db.wrappers.Keys
            && after.requests.Keys == db.requests.Keys
            && (forall k | k in db.grants ::
                  after.grants[k] == if k.1 == u && k.0 in db.vaults && db.vaults[k.0].org == org && db.grants[k].status != Revoked
                                     then Grant(db.grants[k].accessVersion + 1, db.grants[k].isCreator, Revoked, Some(now))
                                     else db.grants[k])
            && (forall k | k in db.wrappers ::
                  after.wrappers[k] == if k.1 == u && k.0 in db.vaults && db.vaults[k.0].org == org
                                       then db.wrappers[k].(revokedAt := Some(now)) else db.wrappers[k])
            && (forall r | r in db.requests ::
                  var row := db.requests[r];
                  after.requests[r] == if row.user == u && row.vault in db.vaults && db.vaults[row.vault].org == org
                                       then row.(status := Canceled, envelope := None) else row)
            && (forall v :: v in after.refreshes <==> v in db.refreshes || (v in db.vaults && db.vaults[v].org == org))
            && (forall v | v in after.refreshes ::
                  after.refreshes[v] == if !(v in db.vaults && db.vaults[v].org == org) then db.refreshes[v]
                                        else if v in db.refreshes then replaced else inserted)
            && after == db.(members := after.members, grants := after.grants, wrappers := after.wrappers,
                            requests := after.requests, refreshes := after.refreshes)
  {
  }

  // -------------------------------------------------------------- key requests

  /** A row of the same vault and user that is pending or approved, canceled without its ciphertext. */
  function Superseded(row: KeyRequest, v: VaultId, u: UserId): KeyRequest {
    if row.vault == v && row.user == u && (row.status == RequestStatus.Pending || row.status == Approved)
    then row.(status := Canceled, envelope := None) else row
  }

  lemma RequestsExactly(db: Db, id: RequestId, row: KeyRequest)
    ensures var (after, created) := CreateKeyRequest(db, id, row);
            && (created <==> id !in db.requests)
            && (!created ==> after == db)
            && (created ==>
                  && after == db.(requests := after.requests) && after.requests.Keys == db.requests.Keys + {id}
                  && after.requests[id] == row
                  && (forall r | r in db.requests :: after.requests[r] == Superseded(db.requests[r], row.vault, row.user)))
  {
  }

  /** A grant of the request's version that is not revoked. */
  predicate HasVersion(db: Db, v: VaultId, u: UserId, x: nat) {
    (v, u) in db.grants && db.grants[(v, u)].status != Revoked && db.grants[(v, u)].accessVersion == x
  }

  /** An approval needs a pending, unexpired request, an approver who manages the present vault's
      organization and has an active grant, and a recipient whose grant still has the version. */
  lemma ApprovesExactly(db: Db, id: RequestId, approver: UserId, envelope: TransferEnvelope, now: int)
    ensures var (after, approved) := ApproveKeyRequest(db, id, approver, envelope, now);
            && (approved <==>
                  && id in db.requests && db.requests[id].status == RequestStatus.Pending && now < db.requests[id].expiresAt
                  && (db.requests[id].vault, approver) in db.grants && db.grants[(db.requests[id].vault, approver)].status == Active
                  && db.requests[id].vault in db.vaults && db.vaults[db.requests[id].vault].deletedAt == None
                  && (db.vaults[db.requests[id].vault].org, approver) in db.members
                  && db.members[(db.vaults[db.requests[id].vault].org, approver)] != Member
                  && HasVersion(db, db.requests[id].vault, db.requests[id].user, db.requests[id].accessVersion))
            && after == if approved
                        then db.(requests := db.requests[id := db.requests[id].(status := Approved, approvedBy := Some(approver),
                                                                                envelope := Some(envelope))])
                        else db
  {
  }

  /** A completion needs an approved, unexpired request, a grant that still has its version and a
      member; it writes wrapper, grant and request, and of the wrapper's row keeps the key version. */
  lemma CompletesExactly(db: Db, id: RequestId, request: KeyRequest, envelope: PasswordEnvelope, now: int)
    ensures var (after, completed) := CompleteKeyRequest(db, id, request, envelope, now);
            var k := (request.vault, request.user);
            && (completed <==>
                  && id in db.requests && db.requests[id].status == Approved && now < db.requests[id].expiresAt
                  && HasVersion(db, request.vault, request.user, request.accessVersion)
                  && request.vault in db.vaults && (db.vaults[request.vault].org, request.user) in db.members)
            && (!completed ==> after == db)
            && (completed ==>
                  after == db.(requests := db.requests[id := db.requests[id].(status := Completed, envelope := None)],
                               grants := db.grants[k := db.grants[k].(status := Active, revokedAt := None)],
                               wrappers := db.wrappers[k := Wrapper(if k in db.wrappers then db.wrappers[k].keyVersion
                                                                    else envelope.keyVersion, envelope, None)]))
  {
  }

  /** A password change needs a present vault, a member with an active grant and the vault's key
      version; it writes the wrapper and closes the user's open requests for the vault. */
  lemma PasswordChangesExactly(db: Db, u: UserId, v: VaultId, envelope: PasswordEnvelope)
    ensures var (after, changed) := UpsertPasswordWrapper(db, u, v, envelope);
            && (changed <==>
                  && v in db.vaults && db.vaults[v].deletedAt == None && db.vaults[v].keyVersion == envelope.keyVersion
                  && (db.vaults[v].org, u) in db.members && (v, u) in db.grants && db.grants[(v, u)].status == Active)
            && (!changed ==> after == db)
            && (changed ==>
                  && after == db.(wrappers := after.wrappers, requests := after.requests)
                  && after.wrappers == db.wrappers[(v, u) := Wrapper(if (v, u) in db.wrappers then db.wrappers[(v, u)].keyVersion
                                                                     else envelope.keyVersion, envelope, None)]
                  && after.requests.Keys == db.requests.Keys
                  && (forall r | r in db.requests :: after.requests[r] == Superseded(db.requests[r], v, u)))
  {
  }

  lemma PrunesExactly(db: Db, now: int)
    ensures var after := PruneExpired(db, now);
            && after == db.(requests := after.requests) && after.requests.Keys == db.requests.Keys
            && (forall r | r in db.requests ::
                  after.requests[r] == if db.requests[r].expiresAt <= now
                                       then Superseded(db.requests[r], db.requests[r].vault, db.requests[r].user)
                                       else db.requests[r])
  {
  }

  /** A wrapper is served to its user as it was stored, until it is revoked. */
  lemma ServedWrapper(db: Db, v: VaultId, u: UserId)
    ensures PasswordWrapper(db, v, u).Some? <==> (v, u) in db.wrappers && db.wrappers[(v, u)].revokedAt == None
    ensures PasswordWrapper(db, v, u).Some? ==> PasswordWrapper(db, v, u).value == db.wrappers[(v, u)].envelope
  {
  }

  // ----------------------------------------------------- refreshes and vaults

  lemma RefreshesExactly(db: Db, v: VaultId, revision: Revision)
    ensures QueueRefresh(db, v, revision) == db.(refreshes := db.refreshes[v := revision])
    ensures FinishRefresh(db, v, revision)
         == if v in db.refreshes && db.refreshes[v] == revision then db.(refreshes := db.refreshes - {v}) else db
  {
  }

  /** A manager creates a vault under a fresh identifier while the plan allows one more; it is shared
      from the start exactly if the organization has others, and its creator holds wrapper and grant. */
  lemma CreatesVaultExactly(db: Db, v: VaultId, org: OrgId, u: UserId, envelope: PasswordEnvelope, maxVaults: nat, now: int)
    ensures var (after, created) := CreateVault(db, v, org, u, envelope, maxVaults, now);
            var present := set p | p in db.vaults && db.vaults[p].org == org && db.vaults[p].deletedAt == None;
            && (created <==>
                  && v !in db.vaults && (v, u) !in db.grants && (v, u) !in db.wrappers
                  && (maxVaults == 0 || |present| < maxVaults)
                  && (org, u) in db.members && db.members[(org, u)] != Member)
            && (!created ==> after == db)
            && (created ==>
                  after == db.(vaults := db.vaults[v := Vault(org, if |TakenSeats(db, org)| > 1 then Some(now) else None,
                                                              envelope.keyVersion, None)],
                               wrappers := db.wrappers[(v, u) := Wrapper(envelope.keyVersion, envelope, None)],
                               grants := db.grants[(v, u) := Grant(1, true, Active, None)]))
  {
    assert (set p | p in db.vaults && db.vaults[p].org == org && db.vaults[p].deletedAt == None) == LiveVaultIdsOf(db.vaults, org);
    assert TakenSeats(db, org) == MembersOf(db, org);
  }
}
