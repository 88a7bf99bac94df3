/** The sharing tables and, for each store operation, the single guarded step it amounts to. */
module SharingTables {
  import opened Wrappers
  import opened VaultCrypto

  type OrgId = nat
  type InvitationId = nat
  type Revision = nat
  type Email = string

  const HOUR_MS: int := 60 * 60 * 1000
  const MINUTE_MS: int := 60 * 1000
  const REQUEST_LIFETIME_MS: int := 48 * 60 * 60 * 1000

  datatype Role = Owner | Admin | Member

  predicate IsManager(role: Role) {
    role.Owner? || role.Admin?
  }

  datatype Vault = Vault(org: OrgId, sharedAt: Option<int>, keyVersion: int, deletedAt: Option<int>)

  datatype GrantStatus = Active | PendingKey | Revoked

  datatype Grant = Grant(accessVersion: nat, isCreator: bool, status: GrantStatus, revokedAt: Option<int>)

  datatype Wrapper = Wrapper(keyVersion: int, envelope: PasswordEnvelope, revokedAt: Option<int>)

  datatype RequestStatus = Pending | Approved | Completed | Canceled

  datatype Purpose = Enrollment | Recovery

  datatype KeyRequest = KeyRequest(vault: VaultId, user: UserId, accessVersion: nat, publicKey: KeyPairId, purpose: Purpose,
                                   status: RequestStatus, envelope: Option<TransferEnvelope>, approvedBy: Option<UserId>,
                                   createdAt: int, expiresAt: int)

  datatype InvitationStatus = Invited | Accepted | Withdrawn | Rejected

  datatype Invitation = Invitation(org: OrgId, email: Email, role: Role, status: InvitationStatus, expiresAt: int,
                                   createdAt: int, inviter: UserId)

  /** A delivery recorded in the audit table; rows of other actions are not kept here. */
  datatype Delivery = Delivery(org: OrgId, target: InvitationId, createdAt: int)

  datatype Db = Db(members: map<(OrgId, UserId), Role>, emails: map<UserId, Email>, vaults: map<VaultId, Vault>,
                   grants: map<(VaultId, UserId), Grant>, wrappers: map<(VaultId, UserId), Wrapper>,
                   requests: map<RequestId, KeyRequest>, invitations: map<InvitationId, Invitation>,
                   refreshes: map<VaultId, Revision>, audit: seq<Delivery>)

  // ---------------------------------------------------------------- lookups

  function LowerChar(c: char): char {
    if 'A' <= c <= 'Z' then c - 'A' + 'a' else c
  }

  function Lower(s: string): string {
    seq(|s|, i requires 0 <= i < |s| => LowerChar(s[i]))
  }

  predicate VaultIn(db: Db, v: VaultId, org: OrgId) {
    v in db.vaults && db.vaults[v].org == org
  }

  predicate LiveVault(db: Db, v: VaultId) {
    v in db.vaults && db.vaults[v].deletedAt.None?
  }

  predicate LiveInvitation(db: Db, id: InvitationId, now: int) {
    id in db.invitations && db.invitations[id].status.Invited? && db.invitations[id].expiresAt > now
  }

  predicate OpenRequest(r: KeyRequest) {
    r.status.Pending? || r.status.Approved?
  }

  function MembersOf(db: Db, org: OrgId): set<UserId> {
    set m | m in db.members && m.0 == org :: m.1
  }

  function LiveInvitationsOf(db: Db, org: OrgId, now: int): set<InvitationId> {
    set id | id in db.invitations && db.invitations[id].org == org && LiveInvitation(db, id, now)
  }

  function EnrollmentStatus(grant: Option<Grant>): GrantStatus {
    if grant.None? || grant.value.status.Revoked? then PendingKey else grant.value.status
  }

  function GrantOf(db: Db, v: VaultId, u: UserId): Option<Grant> {
    if (v, u) in db.grants then Some(db.grants[(v, u)]) else None
  }

  /** A grant that still admits a key: awaiting one or already active. */
  predicate Enrolled(db: Db, v: VaultId, u: UserId, accessVersion: nat) {
    (v, u) in db.grants && !db.grants[(v, u)].status.Revoked? && db.grants[(v, u)].accessVersion == accessVersion
  }

  predicate IsMember(db: Db, v: VaultId, u: UserId) {
    v in db.vaults && (db.vaults[v].org, u) in db.members
  }

  predicate IsVaultManager(db: Db, v: VaultId, u: UserId) {
    IsMember(db, v, u) && IsManager(db.members[(db.vaults[v].org, u)])
  }

  // ----------------------------------------------------------- invitations

  predicate MayInvite(db: Db, org: OrgId, email: Email, memberLimit: nat, now: int) {
    && (forall id | id in LiveInvitationsOf(db, org, now) :: Lower(db.invitations[id].email) != email)
    && (forall u | u in MembersOf(db, org) :: u in db.emails ==> Lower(db.emails[u]) != email)
    && (memberLimit == 0 || |MembersOf(db, org)| + |LiveInvitationsOf(db, org, now)| < memberLimit)
  }

  function CreateInvitation(db: Db, id: InvitationId, org: OrgId, email: Email, role: Role, inviter: UserId,
                            memberLimit: nat, now: int): (r: (Db, bool))
    ensures r.0 == db.(invitations := r.0.invitations)
  {
    if id !in db.invitations && MayInvite(db, org, email, memberLimit, now) then
      (db.(invitations := db.invitations[id := Invitation(org, email, role, Invited, now + REQUEST_LIFETIME_MS, now, inviter)]),
       true)
    else (db, false)
  }

  function SetInvitationStatus(db: Db, id: InvitationId, status: InvitationStatus): (r: Db)
    ensures r == db.(invitations := r.invitations)
  {
    if id in db.invitations && db.invitations[id].status.Invited?
    then db.(invitations := db.invitations[id := db.invitations[id].(status := status)]) else db
  }

  function Queued(refreshes: map<VaultId, Revision>, vaults: set<VaultId>, inserted: Revision, replaced: Revision):
    map<VaultId, Revision>
  {
    map v | v in refreshes.Keys + vaults ::
      if v !in vaults then refreshes[v] else if v in refreshes then replaced else inserted
  }

  function VaultIdsOf(vaults: map<VaultId, Vault>, org: OrgId): set<VaultId> {
    set v | v in vaults && vaults[v].org == org
  }

  function LiveVaultIdsOf(vaults: map<VaultId, Vault>, org: OrgId): set<VaultId> {
    set v | v in vaults && vaults[v].org == org && vaults[v].deletedAt.None?
  }

  function Shared(vaults: map<VaultId, Vault>, live: set<VaultId>, now: int): map<VaultId, Vault> {
    map v | v in vaults ::
      if v in live then vaults[v].(sharedAt := if vaults[v].sharedAt.Some? then vaults[v].sharedAt else Some(now)) else vaults[v]
  }

  /** Either nothing happens, or the user becomes a member, every live vault of the organization is
      marked shared and queued for refresh, and the invitation is accepted. */
  function AcceptInvitation(db: Db, id: InvitationId, invite: Invitation, user: UserId, now: int, inserted: Revision,
                            replaced: Revision): (r: (Db, bool))
    ensures r.0 == db.(members := r.0.members, vaults := r.0.vaults, refreshes := r.0.refreshes,
                       invitations := r.0.invitations)
  {
    if !LiveInvitation(db, id, now) then (db, false)
    else
      var live := LiveVaultIdsOf(db.vaults, invite.org);
      (db.(members := if (invite.org, user) in db.members then db.members else db.members[(invite.org, user) := invite.role],
           vaults := Shared(db.vaults, live, now),
           refreshes := Queued(db.refreshes, live, inserted, replaced),
           invitations := db.invitations[id := db.invitations[id].(status := Accepted)]),
       true)
  }

  function RecentDeliveries(audit: seq<Delivery>, org: OrgId, since: int): nat {
    if audit == [] then 0
    else
      var row := audit[|audit| - 1];
      RecentDeliveries(audit[..|audit| - 1], org, since)
      + if row.org == org && row.createdAt > since then 1 else 0
  }

  predicate DeliveredSince(audit: seq<Delivery>, target: InvitationId, since: int) {
    exists i | 0 <= i < |audit| :: audit[i].target == target && audit[i].createdAt > since
  }

  function ClaimDelivery(db: Db, id: InvitationId, org: OrgId, now: int): (r: (Db, bool))
    ensures r.0 == db.(audit := r.0.audit)
  {
    if !DeliveredSince(db.audit, id, now - MINUTE_MS) && RecentDeliveries(db.audit, org, now - HOUR_MS) < 20
    then (db.(audit := db.audit + [Delivery(org, id, now)]), true) else (db, false)
  }

  // ------------------------------------------------- members and enrollment

  /** Gives a member a grant awaiting its key; a revoked one returns under a new access version. */
  function EnsureEnrollment(db: Db, v: VaultId, u: UserId): (r: Db)
    ensures r == db.(grants := r.grants)
  {
    if !LiveVault(db, v) || !IsMember(db, v, u) then db
    else if (v, u) !in db.grants then db.(grants := db.grants[(v, u) := Grant(1, false, PendingKey, None)])
    else
      var g := db.grants[(v, u)];
      if g.status.Revoked?
      then db.(grants := db.grants[(v, u) := Grant(g.accessVersion + 1, g.isCreator, PendingKey, None)]) else db
  }

  function ChangeRole(db: Db, org: OrgId, u: UserId, role: Role): (r: Db)
    ensures r == db.(members := r.members)
  {
    if (org, u) in db.members && !db.members[(org, u)].Owner? then db.(members := db.members[(org, u) := role]) else db
  }

  function RevokedGrant(g: Grant, now: int): Grant {
    if g.status.Revoked? then g else g.(status := Revoked, revokedAt := Some(now), accessVersion := g.accessVersion + 1)
  }

  function CanceledRequest(r: KeyRequest): KeyRequest {
    r.(status := Canceled, envelope := None)
  }

  function RevokeGrants(grants: map<(VaultId, UserId), Grant>, vaults: set<VaultId>, u: UserId, now: int):
    map<(VaultId, UserId), Grant>
  {
    map k | k in grants :: if k.0 in vaults && k.1 == u then RevokedGrant(grants[k], now) else grants[k]
  }

  function RevokeWrappers(wrappers: map<(VaultId, UserId), Wrapper>, vaults: set<VaultId>, u: UserId, now: int):
    map<(VaultId, UserId), Wrapper>
  {
    map k | k in wrappers :: if k.0 in vaults && k.1 == u then wrappers[k].(revokedAt := Some(now)) else wrappers[k]
  }

  function CancelRequests(requests: map<RequestId, KeyRequest>, vaults: set<VaultId>, u: UserId): map<RequestId, KeyRequest> {
    map r | r in requests ::
      if requests[r].vault in vaults && requests[r].user == u then CanceledRequest(requests[r]) else requests[r]
  }

  /** Removal revokes the user's grants and wrappers and cancels the user's requests in every vault
      of the organization, deleted ones too, queues those vaults and drops the membership. */
  function RemoveMember(db: Db, org: OrgId, u: UserId, now: int, inserted: Revision, replaced: Revision): (r: Db)
    ensures r == db.(grants := r.grants, wrappers := r.wrappers, requests := r.requests, refreshes := r.refreshes,
                     members := r.members)
  {
    var vaults := VaultIdsOf(db.vaults, org);
    db.(grants := RevokeGrants(db.grants, vaults, u, now),
        wrappers := RevokeWrappers(db.wrappers, vaults, u, now),
        requests := CancelRequests(db.requests, vaults, u),
        refreshes := Queued(db.refreshes, vaults, inserted, replaced),
        members := db.members - {(org, u)})
  }

  // -------------------------------------------------------------- requests

  function CancelOpen(requests: map<RequestId, KeyRequest>, v: VaultId, u: UserId): map<RequestId, KeyRequest> {
    map r | r in requests ::
      if requests[r].vault == v && requests[r].user == u && OpenRequest(requests[r]) then CanceledRequest(requests[r])
      else requests[r]
  }

  /** Cancels the open requests of the same vault and user and adds this one; an id already used
      rolls everything back. */
  function CreateKeyRequest(db: Db, id: RequestId, row: KeyRequest): (r: (Db, bool))
    ensures r.0 == db.(requests := r.0.requests)
  {
    if id in db.requests then (db, false)
    else (db.(requests := CancelOpen(db.requests, row.vault, row.user)[id := row]), true)
  }

  predicate MayApprove(db: Db, id: RequestId, approvedBy: UserId, now: int) {
    && id in db.requests && db.requests[id].status.Pending? && db.requests[id].expiresAt > now
    && var r := db.requests[id];
       && (r.vault, approvedBy) in db.grants && db.grants[(r.vault, approvedBy)].status.Active?
       && IsVaultManager(db, r.vault, approvedBy) && LiveVault(db, r.vault)
       && Enrolled(db, r.vault, r.user, r.accessVersion)
  }

  function ApproveKeyRequest(db: Db, id: RequestId, approvedBy: UserId, envelope: TransferEnvelope, now: int): (r: (Db, bool))
    ensures r.0 == db.(requests := r.0.requests)
  {
    if MayApprove(db, id, approvedBy, now) then
      (db.(requests := db.requests[id := db.requests[id].(status := Approved, approvedBy := Some(approvedBy),
                                                           envelope := Some(envelope))]), true)
    else (db, false)
  }

  /** `request` is the row the service read; its identifying columns never change. */
  predicate MayComplete(db: Db, id: RequestId, request: KeyRequest, now: int) {
    && id in db.requests && db.requests[id].status.Approved? && db.requests[id].expiresAt > now
    && Enrolled(db, request.vault, request.user, request.accessVersion)
    && IsMember(db, request.vault, request.user)
  }

  function WrittenWrapper(db: Db, v: VaultId, u: UserId, envelope: PasswordEnvelope): Wrapper {
    Wrapper(if (v, u) in db.wrappers then db.wrappers[(v, u)].keyVersion else envelope.keyVersion, envelope, None)
  }

  /** All or nothing: the wrapper is written, the grant active and the request completed. */
  function CompleteKeyRequest(db: Db, id: RequestId, request: KeyRequest, envelope: PasswordEnvelope, now: int): (r: (Db, bool))
    ensures r.0 == db.(wrappers := r.0.wrappers, grants := r.0.grants, requests := r.0.requests)
  {
    if !MayComplete(db, id, request, now) then (db, false)
    else
      var k := (request.vault, request.user);
      (db.(wrappers := db.wrappers[k := WrittenWrapper(db, request.vault, request.user, envelope)],
           grants := db.grants[k := db.grants[k].(status := Active, revokedAt := None)],
           requests := db.requests[id := db.requests[id].(status := Completed, envelope := None)]), true)
  }

  predicate MayChangePassword(db: Db, u: UserId, v: VaultId, envelope: PasswordEnvelope) {
    && LiveVault(db, v) && IsMember(db, v, u) && (v, u) in db.grants && db.grants[(v, u)].status.Active?
    && db.vaults[v].keyVersion == envelope.keyVersion
  }

  /** A password change replaces the wrapper and cancels the user's open requests for the vault. */
  function UpsertPasswordWrapper(db: Db, u: UserId, v: VaultId, envelope: PasswordEnvelope): (r: (Db, bool))
    ensures r.0 == db.(wrappers := r.0.wrappers, requests := r.0.requests)
  {
    if !MayChangePassword(db, u, v, envelope) then (db, false)
    else (db.(wrappers := db.wrappers[(v, u) := WrittenWrapper(db, v, u, envelope)],
              requests := CancelOpen(db.requests, v, u)), true)
  }

  function PruneExpired(db: Db, now: int): (r: Db)
    ensures r == db.(requests := r.requests)
  {
    db.(requests := map r | r in db.requests ::
      if db.requests[r].expiresAt <= now && OpenRequest(db.requests[r]) then CanceledRequest(db.requests[r]) else db.requests[r])
  }

  function PasswordWrapper(db: Db, v: VaultId, u: UserId): Option<PasswordEnvelope> {
    if (v, u) in db.wrappers && db.wrappers[(v, u)].revokedAt.None? then Some(db.wrappers[(v, u)].envelope) else None
  }

  // --------------------------------------------------- refreshes and vaults

  function QueueRefresh(db: Db, v: VaultId, revision: Revision): (r: Db)
    ensures r == db.(refreshes := r.refreshes)
  {
    db.(refreshes := db.refreshes[v := revision])
  }

  function FinishRefresh(db: Db, v: VaultId, revision: Revision): (r: Db)
    ensures r == db.(refreshes := r.refreshes)
  {
    if v in db.refreshes && db.refreshes[v] == revision then db.(refreshes := db.refreshes - {v}) else db
  }

  /** A manager's new vault comes with its creator's wrapper and active grant, or not at all. */
  function CreateVault(db: Db, v: VaultId, org: OrgId, u: UserId, envelope: PasswordEnvelope, maxVaults: nat, now: int):
    (r: (Db, bool))
    ensures r.0 == db.(vaults := r.0.vaults, wrappers := r.0.wrappers, grants := r.0.grants)
  {
    if && v !in db.vaults && (v, u) !in db.grants && (v, u) !in db.wrappers
       && (maxVaults == 0 || |LiveVaultIdsOf(db.vaults, org)| < maxVaults)
       && (org, u) in db.members && IsManager(db.members[(org, u)])
    then
      (db.(vaults := db.vaults[v := Vault(org, if |MembersOf(db, org)| > 1 then Some(now) else None, envelope.keyVersion, None)],
           wrappers := db.wrappers[(v, u) := Wrapper(envelope.keyVersion, envelope, None)],
           grants := db.grants[(v, u) := Grant(1, true, Active, None)]), true)
    else (db, false)
  }

  function SetDeleted(db: Db, v: VaultId, deletedAt: Option<int>): (r: Db)
    ensures r == db.(vaults := r.vaults)
  {
    if v in db.vaults then db.(vaults := db.vaults[v := db.vaults[v].(deletedAt := deletedAt)]) else db
  }
}
