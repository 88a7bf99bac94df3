/** A member who is removed, invited again and accepts: back in the organization, but without access,
    save for what an access check read before the removal. */
module SharingReturn {
  import opened Wrappers
  import opened VaultCrypto
  import opened SharingTables
  import opened SharingService
  import opened SharingSafety
  import opened SharingEpochs
  import opened SharingCalls
  import opened SharingAlone

  function Advances(t: ThreadId, freshId: InvitationId, n: nat): seq<Step> {
    if n == 0 then [] else [Advance(t, true, freshId)] + Advances(t, freshId, n - 1)
  }

  /** A call that nothing else interrupts. */
  function Undisturbed(t: ThreadId, call: Call, freshId: InvitationId): seq<Step> {
    [Begin(t, call)] + Advances(t, freshId, MOST_STEPS)
  }

  lemma {:induction false} AdvancesRun(w: World, t: ThreadId, freshId: InvitationId, n: nat)
    ensures Run(w, Advances(t, freshId, n)) == AdvanceTimes(w, t, true, freshId, n)
    decreases n
  {
    hide Apply;
    if n > 0 {
      assert Advances(t, freshId, n)[1..] == Advances(t, freshId, n - 1);
      AdvancesRun(Apply(w, Advance(t, true, freshId)), t, freshId, n - 1);
    }
  }

  lemma CallRuns(w: World, t: ThreadId, call: Call, freshId: InvitationId)
    requires t !in w.threads && (call.Invite? || freshId == 0)
    ensures var done := Run(w, Undisturbed(t, call, freshId));
            && done.threads.Keys == w.threads.Keys + {t} && done.now == w.now
            && (done.db, done.threads[t].pc.Done?) == Outcome(w.db, call, true, freshId, w.now, w.nextRevision)
  {
    hide Apply, Advances, AdvanceTimes, Outcome;
    var steps := Undisturbed(t, call, freshId);
    assert steps[1..] == Advances(t, freshId, MOST_STEPS);
    AdvancesRun(Apply(w, Begin(t, call)), t, freshId, MOST_STEPS);
    UndisturbedCall(w, t, call, true, freshId);
    var done := AdvanceTimes(Apply(w, Begin(t, call)), t, true, freshId, MOST_STEPS);
    assert done.threads.Keys == (done.threads - {t}).Keys + {t};
  }

  /** An owner, a member with access to a vault, and an email nobody else has or is invited under. */
  predicate MayBeReplaced(db: Db, org: OrgId, owner: UserId, u: UserId, v: VaultId, now: int) {
    && VaultIn(db, v, org) && LiveVault(db, v)
    && (v, u) in db.grants && db.grants[(v, u)].status.Active?
    && (org, owner) in db.members && db.members[(org, owner)].Owner?
    && (org, u) in db.members && !db.members[(org, u)].Owner? && u in db.emails
    && (forall other | other in MembersOf(db, org) && other != u && other in db.emails ::
          Lower(db.emails[other]) != Lower(Trim(db.emails[u])))
    && (forall id | id in LiveInvitationsOf(db, org, now) :: Lower(db.invitations[id].email) != Lower(Trim(db.emails[u])))
  }

  function Away(t: ThreadId, org: OrgId, owner: UserId, u: UserId): seq<Step> {
    Undisturbed(t, ChangeMember(owner, org, u, None), 0)
  }

  function Invited(t: ThreadId, org: OrgId, owner: UserId, email: Email, id: InvitationId): seq<Step> {
    Undisturbed(t, SharingService.Invite(owner, org, email, Member, 0), id)
  }

  function Back(t: ThreadId, u: UserId, email: Email, id: InvitationId): seq<Step> {
    Undisturbed(t, Respond(u, email, id, true), 0)
  }

  /** The owner removes the member, invites the member's email, and the member accepts. */
  function Return(db: Db, org: OrgId, owner: UserId, u: UserId, id: InvitationId, t: ThreadId): seq<Step>
    requires u in db.emails
  {
    Away(t, org, owner, u) + (Invited(t + 1, org, owner, db.emails[u], id) + Back(t + 2, u, Lower(Trim(db.emails[u])), id))
  }

  lemma Leaves(db: Db, org: OrgId, owner: UserId, u: UserId, v: VaultId, now: int, revision: Revision)
    requires MayBeReplaced(db, org, owner, u, v, now)
    ensures var (after, ok) := Outcome(db, ChangeMember(owner, org, u, None), true, 0, now, revision);
            && ok && ShutOut(after, org, u) && after.invitations == db.invitations && after.emails == db.emails
            && after.members == db.members - {(org, u)} && after.vaults == db.vaults
            && (v, u) in after.grants && after.grants[(v, u)].status.Revoked?
  {
    assert v in VaultIdsOf(db.vaults, org);
    ChangeMeans(db, owner, org, u, None, now, revision);
    hide LiveVault, Trim, Lower, Queued, RevokeWrappers, CancelRequests, VaultIdsOf;
  }

  lemma MayComeBack(db: Db, away: Db, org: OrgId, owner: UserId, u: UserId, v: VaultId, now: int)
    requires MayBeReplaced(db, org, owner, u, v, now)
    requires away.invitations == db.invitations && away.emails == db.emails && away.members == db.members - {(org, u)}
    ensures MayAskFor(away, owner, org, Member) && MayInvite(away, org, Lower(Trim(db.emails[u])), 0, now)
  {
    hide Lower, Trim;
    assert (org, owner) in away.members;
    assert LiveInvitationsOf(away, org, now) == LiveInvitationsOf(db, org, now);
    forall other | other in MembersOf(away, org)
      ensures other in away.emails ==> Lower(away.emails[other]) != Lower(Trim(db.emails[u]))
    {
      var m :| m in away.members && m.0 == org && m.1 == other;
      assert other in MembersOf(db, org) && other != u;
    }
  }

  lemma ComesBack(db: Db, org: OrgId, owner: UserId, u: UserId, email: Email, id: InvitationId, now: int, revision: Revision)
    requires MayAskFor(db, owner, org, Member) && MayInvite(db, org, Lower(Trim(email)), 0, now) && id !in db.invitations
    ensures var (invited, ok) := Outcome(db, SharingService.Invite(owner, org, email, Member, 0), true, id, now, revision);
            && ok && invited == db.(invitations := invited.invitations)
            && MayRespond(invited, Lower(Trim(email)), id, true, true, now) && !invited.invitations[id].status.Accepted?
            && invited.invitations[id].org == org
  {
    LoweredTwice(Trim(email));
    hide MayInvite, Trim, Lower;
    InviteMeans(db, owner, org, email, Member, 0, true, id, now);
  }

  lemma AcceptsAgain(db: Db, org: OrgId, u: UserId, email: Email, id: InvitationId, v: VaultId, now: int, revision: Revision)
    requires MayRespond(db, email, id, true, true, now) && !db.invitations[id].status.Accepted? && db.invitations[id].org == org
    requires LiveVault(db, v)
    ensures var (after, ok) := Outcome(db, Respond(u, email, id, true), true, 0, now, revision);
            && ok && (org, u) in after.members && after.grants == db.grants && LiveVault(after, v)
  {
    RespondMeans(db, u, email, id, true, true, now, revision);
    hide MayRespond, Lower, Queued;
  }

  lemma ReturnRuns(w: World, org: OrgId, owner: UserId, u: UserId, v: VaultId, id: InvitationId, t: ThreadId)
    requires MayBeReplaced(w.db, org, owner, u, v, w.now) && id !in w.db.invitations
    requires t !in w.threads && t + 1 !in w.threads && t + 2 !in w.threads
    ensures var back := Run(w, Return(w.db, org, owner, u, id, t));
            && (org, u) in back.db.members && LiveVault(back.db, v)
            && (v, u) in back.db.grants && back.db.grants[(v, u)].status.Revoked?
  {
    hide *;
    ReplacedMeans(w.db, org, owner, u, v, w.now);
    var email := w.db.emails[u];
    Leaves(w.db, org, owner, u, v, w.now, w.nextRevision);
    AwayIs(t, org, owner, u);
    InvitedIs(t + 1, org, owner, email, id);
    BackIs(t + 2, u, Lower(Trim(email)), id);
    ReturnIs(w.db, org, owner, u, id, t);
    RunJoins(w, Away(t, org, owner, u), Invited(t + 1, org, owner, email, id) + Back(t + 2, u, Lower(Trim(email)), id));
    CallRuns(w, t, ChangeMember(owner, org, u, None), 0);
    var away := Run(w, Away(t, org, owner, u));
    StaysLive(w.db, away.db, v);
    MayComeBack(w.db, away.db, org, owner, u, v, w.now);
    RunJoins(away, Invited(t + 1, org, owner, email, id), Back(t + 2, u, Lower(Trim(email)), id));
    ComesBack(away.db, org, owner, u, email, id, away.now, away.nextRevision);
    CallRuns(away, t + 1, SharingService.Invite(owner, org, email, Member, 0), id);
    var invited := Run(away, Invited(t + 1, org, owner, email, id));
    StaysLive(away.db, invited.db, v);
    AcceptsAgain(invited.db, org, u, Lower(Trim(email)), id, v, invited.now, invited.nextRevision);
    CallRuns(invited, t + 2, Respond(u, Lower(Trim(email)), id, true), 0);
  }

  lemma ReplacedMeans(db: Db, org: OrgId, owner: UserId, u: UserId, v: VaultId, now: int)
    requires MayBeReplaced(db, org, owner, u, v, now)
    ensures LiveVault(db, v) && (v, u) in db.grants && u in db.emails
  {
  }

  lemma ReturnIs(db: Db, org: OrgId, owner: UserId, u: UserId, id: InvitationId, t: ThreadId)
    requires u in db.emails
    ensures Return(db, org, owner, u, id, t)
         == Away(t, org, owner, u)
            + (Invited(t + 1, org, owner, db.emails[u], id) + Back(t + 2, u, Lower(Trim(db.emails[u])), id))
  {
  }

  lemma StaysLive(db: Db, after: Db, v: VaultId)
    requires LiveVault(db, v) && after.vaults == db.vaults
    ensures LiveVault(after, v)
  {
  }

  lemma AwayIs(t: ThreadId, org: OrgId, owner: UserId, u: UserId)
    ensures Away(t, org, owner, u) == Undisturbed(t, ChangeMember(owner, org, u, None), 0)
  {
    hide Undisturbed;
  }

  lemma InvitedIs(t: ThreadId, org: OrgId, owner: UserId, email: Email, id: InvitationId)
    ensures Invited(t, org, owner, email, id) == Undisturbed(t, SharingService.Invite(owner, org, email, Member, 0), id)
  {
    hide Undisturbed;
  }

  lemma BackIs(t: ThreadId, u: UserId, email: Email, id: InvitationId)
    ensures Back(t, u, email, id) == Undisturbed(t, Respond(u, email, id, true), 0)
  {
    hide Undisturbed;
  }

  /** While a member with access is removed, invited again and accepts, a check that read the vault and
      the grant before and reads the membership after answers with the old, dead version; a check
      made afterwards is denied. */
  lemma ReturnedMemberAndChecks(w: World, org: OrgId, owner: UserId, u: UserId, v: VaultId, id: InvitationId, t: ThreadId)
    requires Inv(w) && MayBeReplaced(w.db, org, owner, u, v, w.now) && id !in w.db.invitations
    requires t !in w.threads && t + 1 !in w.threads && t + 2 !in w.threads
    ensures var steps := Return(w.db, org, owner, u, id, t);
            var x := w.db.grants[(v, u)].accessVersion;
            var n := |steps|;
            && Observe(w, steps, v, u, Moments(0, 0, n, n), true).pc == Answered(Ok(x))
            && Dead(View(Run(w, steps), v, u), x)
            && Observe(w, steps, v, u, Moments(n, n, n, n), true).pc == Answered(Err(VaultAccessDenied))
  {
    var steps := Return(w.db, org, owner, u, id, t);
    var n := |steps|;
    var x := w.db.grants[(v, u)].accessVersion;
    ReturnRuns(w, org, owner, u, v, id, t);
    WholeRun(w, steps);
    assert At(w, steps, 0) == w by { assert steps[..0] == []; }
    SpanningCheck(w, Run(w, steps), org, u, v);
    LaterCheck(Run(w, steps), u, v);
    hide Inv, MayBeReplaced, Return, Run, At, AdvanceCheck, View, Dead;
    assert Observe(w, steps, v, u, Moments(0, 0, n, n), true).pc == Answered(Ok(x));
    CheckedVersionIsCurrentOrDead(w, steps, v, u, Moments(0, 0, n, n), true, x);
  }

  lemma SpanningCheck(w: World, back: World, org: OrgId, u: UserId, v: VaultId)
    requires VaultIn(w.db, v, org) && LiveVault(w.db, v) && ActiveGrant(w, v, u) && (org, u) in back.db.members
    ensures AdvanceCheck(back, AdvanceCheck(back, AdvanceCheck(w, AdvanceCheck(w, NewCheck(v, u), true), true), true), true).pc
         == Answered(Ok(w.db.grants[(v, u)].accessVersion))
  {
    hide Removals;
  }

  lemma LaterCheck(back: World, u: UserId, v: VaultId)
    requires (v, u) in back.db.grants && back.db.grants[(v, u)].status.Revoked?
    ensures AdvanceCheck(back, AdvanceCheck(back, AdvanceCheck(back, AdvanceCheck(back, NewCheck(v, u), true), true), true), true).pc
         == Answered(Err(VaultAccessDenied))
  {
    hide Removals;
  }
}
