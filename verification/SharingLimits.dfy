/** Two limits every run of the sharing service respects: an organization's seats and the rate of
    invitation deliveries. */
module SharingLimits {
  import opened Wrappers
  import opened VaultCrypto
  import opened SharingTables
  import opened SharingService
  import opened SharingSafety
  import opened SharingEpochs

  // ------------------------------------------------------------------- seats

  /** Members plus invitations that can still be accepted. */
  function Seats(db: Db, org: OrgId, now: int): nat {
    |MembersOf(db, org)| + |LiveInvitationsOf(db, org, now)|
  }

  /** Every call that may invite to the organization carries this member limit. */
  predicate Limited(th: Thread, org: OrgId, limit: nat) {
    th.call.Invite? && th.call.org == org ==> th.call.memberLimit == limit
  }

  predicate LimitedStep(step: Step, org: OrgId, limit: nat) {
    step.Begin? ==> Limited(NewThread(step.call), org, limit)
  }

  predicate OneInvitationPerEmail(db: Db, now: int) {
    forall i, j | LiveInvitation(db, i, now) && LiveInvitation(db, j, now) && i in db.invitations && j in db.invitations ::
      db.invitations[i].org == db.invitations[j].org && db.invitations[i].email == db.invitations[j].email ==> i == j
  }

  lemma SubsetIsSmaller<T>(a: set<T>, b: set<T>)
    requires a <= b
    ensures |a| <= |b|
  {
    assert b == a + (b - a);
  }

  lemma LaterSeats(db: Db, org: OrgId, now: int, later: int)
    requires now <= later
    ensures Seats(db, org, later) <= Seats(db, org, now)
  {
    SubsetIsSmaller(LiveInvitationsOf(db, org, later), LiveInvitationsOf(db, org, now));
  }

  lemma InsertedInvitation(db: Db, id: InvitationId, row: Invitation, now: int, o: OrgId)
    requires id !in db.invitations
    ensures var next := db.(invitations := db.invitations[id := row]);
            && MembersOf(next, o) == MembersOf(db, o)
            && (if o == row.org then LiveInvitationsOf(next, o, now) <= LiveInvitationsOf(db, o, now) + {id}
                else LiveInvitationsOf(next, o, now) <= LiveInvitationsOf(db, o, now))
  {
  }

  lemma InviteSeats(db: Db, id: InvitationId, org: OrgId, email: Email, role: Role, inviter: UserId, limit: nat, now: int, o: OrgId)
    ensures var next := CreateInvitation(db, id, org, email, role, inviter, limit, now).0;
            Seats(next, o, now) <= Seats(db, o, now)
            || (o == org && (limit == 0 || Seats(next, o, now) <= limit))
  {
    if id !in db.invitations && MayInvite(db, org, email, limit, now) {
      assert limit == 0 || Seats(db, org, now) < limit;
      InsertedInvitation(db, id, Invitation(org, email, role, Invited, now + REQUEST_LIFETIME_MS, now, inviter), now, o);
      hide MayInvite, MembersOf, LiveInvitationsOf;
      var next := CreateInvitation(db, id, org, email, role, inviter, limit, now).0;
      if o == org {
        SubsetIsSmaller(LiveInvitationsOf(next, o, now), LiveInvitationsOf(db, o, now) + {id});
      } else {
        SubsetIsSmaller(LiveInvitationsOf(next, o, now), LiveInvitationsOf(db, o, now));
      }
    }
  }

  lemma AcceptSeats(db: Db, id: InvitationId, invite: Invitation, user: UserId, now: int, a: Revision, b: Revision, o: OrgId)
    requires id in db.invitations && SameInvitation(invite, db.invitations[id])
    ensures Seats(AcceptInvitation(db, id, invite, user, now, a, b).0, o, now) <= Seats(db, o, now)
  {
    hide Queued, Shared, LiveVaultIdsOf;
    var (next, accepted) := AcceptInvitation(db, id, invite, user, now, a, b);
    if accepted {
      if o == invite.org {
        assert LiveInvitationsOf(next, o, now) == LiveInvitationsOf(db, o, now) - {id};
        assert id in LiveInvitationsOf(db, o, now);
        assert MembersOf(next, o) <= MembersOf(db, o) + {user};
        SubsetIsSmaller(MembersOf(next, o), MembersOf(db, o) + {user});
      } else {
        assert LiveInvitationsOf(next, o, now) == LiveInvitationsOf(db, o, now);
        assert MembersOf(next, o) == MembersOf(db, o);
      }
    }
  }

  lemma FewerSeats(db: Db, next: Db, o: OrgId, now: int)
    requires next.members.Keys <= db.members.Keys && next.invitations.Keys <= db.invitations.Keys
    requires forall i | i in next.invitations && next.invitations[i].status.Invited? :: next.invitations[i] == db.invitations[i]
    ensures Seats(next, o, now) <= Seats(db, o, now)
    ensures OneInvitationPerEmail(db, now) ==> OneInvitationPerEmail(next, now)
  {
    SubsetIsSmaller(MembersOf(next, o), MembersOf(db, o));
    SubsetIsSmaller(LiveInvitationsOf(next, o, now), LiveInvitationsOf(db, o, now));
  }

  lemma StatementSeats(w: World, s: Statement, org: OrgId, limit: nat)
    requires Justified(w, s) && limit > 0 && Seats(w.db, org, w.now) <= limit
    requires s.InsertInvitation? && s.org == org ==> s.memberLimit == limit
    ensures Seats(Exec(w, s).0.db, org, w.now) <= limit
  {
    Untouched(w, s);
    hide Seats, Fresh, Exec, LiveInvitation, CreateInvitation, AcceptInvitation;
    if s.InsertInvitation? {
      InviteSeats(w.db, s.id, s.org, s.email, s.role, s.inviter, s.memberLimit, w.now, org);
    } else if s.Accept? {
      AcceptSeats(w.db, s.id, s.invite, s.user, w.now, w.nextRevision, w.nextRevision + 1, org);
    } else {
      OthersOnlyShrink(w, s);
      FewerSeats(w.db, Exec(w, s).0.db, org, w.now);
    }
  }

  lemma OthersOnlyShrink(w: World, s: Statement)
    requires !s.InsertInvitation? && !s.Accept?
    ensures var next := Exec(w, s).0.db;
            && next.members.Keys <= w.db.members.Keys && next.invitations.Keys <= w.db.invitations.Keys
            && (forall i | i in next.invitations && next.invitations[i].status.Invited? ::
                  next.invitations[i] == w.db.invitations[i] || s.UpdateInvitation?)
            && (s.UpdateInvitation? ==> forall i | i in next.invitations && next.invitations[i].status.Invited? ::
                  next.invitations[i] == w.db.invitations[i])
  {
    hide Exec, Execute;
    Untouched(w, s);
    if WritesInvitations(s) {
      InvitationsAfter(w, s);
    }
    if WritesMembers(s) {
      MembersAfter(w, s);
    }
  }

  lemma StatementKeepsEmailsApart(w: World, s: Statement)
    requires Justified(w, s) && InvitationRules(w.db) && OneInvitationPerEmail(w.db, w.now)
    ensures OneInvitationPerEmail(Exec(w, s).0.db, w.now)
  {
    Untouched(w, s);
    hide Lower, Fresh, Queued, Shared, LiveVaultIdsOf;
    if s.InsertInvitation? {
      assert forall i | i in w.db.invitations && LiveInvitation(w.db, i, w.now) && w.db.invitations[i].org == s.org ::
          i in LiveInvitationsOf(w.db, s.org, w.now);
    } else if s.Accept? {
    } else {
      hide Exec;
      OthersOnlyShrink(w, s);
      FewerSeats(w.db, Exec(w, s).0.db, 0, w.now);
    }
  }

  // -------------------------------------------------------------- deliveries

  function InWindow(audit: seq<Delivery>, org: OrgId, t: int): nat {
    if audit == [] then 0
    else
      var row := audit[|audit| - 1];
      InWindow(audit[..|audit| - 1], org, t) + if row.org == org && t - HOUR_MS < row.createdAt <= t then 1 else 0
  }

  /** Delivered in order; at most twenty to an organization in any hour whatever its end; and a
      minute between two deliveries of one invitation. */
  ghost predicate DeliveryRules(audit: seq<Delivery>, now: int) {
    && (forall i | 0 <= i < |audit| :: audit[i].createdAt <= now)
    && (forall org, t :: InWindow(audit, org, t) <= 20)
    && (forall i, j | 0 <= i < j < |audit| && audit[i].target == audit[j].target ::
          audit[i].createdAt + MINUTE_MS <= audit[j].createdAt)
  }

  lemma {:induction false} WindowAfterNow(audit: seq<Delivery>, org: OrgId, now: int, t: int)
    requires now <= t && forall i | 0 <= i < |audit| :: audit[i].createdAt <= now
    ensures InWindow(audit, org, t) <= RecentDeliveries(audit, org, now - HOUR_MS)
  {
    if audit != [] {
      WindowAfterNow(audit[..|audit| - 1], org, now, t);
    }
  }

  lemma AppendedWindow(audit: seq<Delivery>, row: Delivery, org: OrgId, t: int)
    requires forall i | 0 <= i < |audit| :: audit[i].createdAt <= row.createdAt
    requires InWindow(audit, org, t) <= 20
    requires row.org == org ==> RecentDeliveries(audit, org, row.createdAt - HOUR_MS) < 20
    ensures InWindow(audit + [row], org, t) <= 20
  {
    assert (audit + [row])[..|audit|] == audit;
    if row.createdAt <= t {
      WindowAfterNow(audit, org, row.createdAt, t);
    }
  }

  lemma ClaimKeepsRules(db: Db, id: InvitationId, org: OrgId, now: int)
    requires DeliveryRules(db.audit, now)
    ensures DeliveryRules(ClaimDelivery(db, id, org, now).0.audit, now)
  {
    hide InWindow, RecentDeliveries;
    var (next, claimed) := ClaimDelivery(db, id, org, now);
    if claimed {
      var row := Delivery(org, id, now);
      forall o, t
        ensures InWindow(next.audit, o, t) <= 20
      {
        AppendedWindow(db.audit, row, o, t);
      }
    }
  }

  // -------------------------------------------------------------------- runs

  /** What a run keeps for one organization and its limit. */
  ghost predicate WithinLimits(w: World, org: OrgId, limit: nat) {
    && Inv(w)
    && Seats(w.db, org, w.now) <= limit
    && OneInvitationPerEmail(w.db, w.now)
    && DeliveryRules(w.db.audit, w.now)
    && forall t | t in w.threads :: Limited(w.threads[t], org, limit)
  }

  lemma StatementKeepsLimits(w: World, s: Statement, org: OrgId, limit: nat)
    requires WithinLimits(w, org, limit) && limit > 0 && Justified(w, s)
    requires s.InsertInvitation? && s.org == org ==> s.memberLimit == limit
    ensures WithinLimits(Exec(w, s).0, org, limit)
  {
    hide Exec, Execute, Justified, Seats, OneInvitationPerEmail, DeliveryRules, Limited, EpochRules, ThreadRules, KeyRequestRules;
    ExecKeepsInv(w, s);
    StatementSeats(w, s, org, limit);
    StatementKeepsEmailsApart(w, s);
    Untouched(w, s);
    if s.Claim? {
      ClaimKeepsRules(w.db, s.id, s.org, w.now);
      ClaimIsExecuted(w, s);
    }
  }

  lemma ClaimIsExecuted(w: World, s: Statement)
    requires s.Claim?
    ensures Exec(w, s).0.db == ClaimDelivery(w.db, s.id, s.org, w.now).0
  {
  }

  lemma StepKeepsLimits(w: World, step: Step, org: OrgId, limit: nat)
    requires WithinLimits(w, org, limit) && limit > 0 && LimitedStep(step, org, limit)
    ensures WithinLimits(Apply(w, step), org, limit)
  {
    hide Exec, Justified, Seats, DeliveryRules, EpochRules, ThreadRules, KeyRequestRules, InvitationRules;
    StepKeepsInv(w, step);
    StepIsItsStatement(w, step);
    var s := StatementOf(w, step);
    NextKeepsCall(w, step);
    if s.Some? {
      StatementKeepsLimits(w, s.value, org, limit);
      Untouched(w, s.value);
    } else if step.Tick? {
      LaterSeats(w.db, org, w.now, w.now + step.ms);
      LaterRules(w.db, w.now, w.now + step.ms);
    }
  }

  lemma LaterRules(db: Db, now: int, later: int)
    requires now <= later && OneInvitationPerEmail(db, now) && DeliveryRules(db.audit, now)
    ensures OneInvitationPerEmail(db, later) && DeliveryRules(db.audit, later)
  {
  }

  /** A step leaves every call as it was, and an invitation is inserted under its call's limit. */
  lemma NextKeepsCall(w: World, step: Step)
    ensures forall t | t in w.threads :: t in Apply(w, step).threads && Apply(w, step).threads[t].call == w.threads[t].call
    ensures forall t | t in Apply(w, step).threads && t !in w.threads :: step.Begin? && Apply(w, step).threads[t] == NewThread(step.call)
    ensures step.Tick? || Apply(w, step).now == w.now
    ensures var s := StatementOf(w, step);
            s.Some? && s.value.InsertInvitation? ==>
              && step.Advance? && step.thread in w.threads && w.threads[step.thread].call.Invite?
              && s.value.org == w.threads[step.thread].call.org
              && s.value.memberLimit == w.threads[step.thread].call.memberLimit
  {
    hide Execute, CountRemoval;
    match step
    case Advance(t, enabled, freshId) =>
      if t in w.threads {
        ActionKeepsCall(w, w.threads[t], enabled, freshId);
        var action := Next(w, w.threads[t], enabled, freshId);
        if action.statement.Some? {
          Untouched(w, action.statement.value);
        }
        hide Next, Exec;
      }
    case Administer(s) =>
      if Administrative(s) {
        Untouched(w, s);
        hide Exec;
      }
    case _ =>
  }

  lemma ActionKeepsCall(w: World, th: Thread, enabled: bool, freshId: InvitationId)
    ensures var action := Next(w, th, enabled, freshId);
            && action.onSuccess.call == th.call && action.onFailure.call == th.call
            && (action.statement.Some? && action.statement.value.InsertInvitation? ==>
                  && th.call.Invite? && action.statement.value.org == th.call.org
                  && action.statement.value.memberLimit == th.call.memberLimit)
  {
    hide LiveVault, IsMember, LiveInvitation, Lower, Trim, ReadVault, ReadMember, AcceptableEnvelope, NewRequest;
  }

  lemma {:induction false} RunKeepsLimits(w: World, steps: seq<Step>, org: OrgId, limit: nat)
    requires WithinLimits(w, org, limit) && limit > 0 && forall s | s in steps :: LimitedStep(s, org, limit)
    ensures WithinLimits(Run(w, steps), org, limit)
    decreases |steps|
  {
    hide WithinLimits, Apply, LimitedStep;
    if steps != [] {
      assert steps[0] in steps && forall s | s in steps[1..] :: s in steps;
      StepKeepsLimits(w, steps[0], org, limit);
      RunKeepsLimits(Apply(w, steps[0]), steps[1..], org, limit);
    }
  }

  /** An organization that starts within a fixed non-zero member limit never has more members and
      live invitations together than the limit, and never two live invitations for one email,
      across any run of invitations, answers, expiry, removals and everything else. */
  lemma SeatsStayWithinTheLimit(members: map<(OrgId, UserId), Role>, emails: map<UserId, Email>, now: int, steps: seq<Step>,
                                org: OrgId, limit: nat)
    requires limit > 0 && forall s | s in steps :: LimitedStep(s, org, limit)
    requires |MembersOf(Initial(members, emails, now).db, org)| <= limit
    ensures var w := Run(Initial(members, emails, now), steps);
            && |MembersOf(w.db, org)| + |LiveInvitationsOf(w.db, org, w.now)| <= limit
            && OneInvitationPerEmail(w.db, w.now)
  {
    InitialInv(members, emails, now);
    assert LiveInvitationsOf(Initial(members, emails, now).db, org, now) == {};
    RunKeepsLimits(Initial(members, emails, now), steps, org, limit);
  }

  /** In every reachable audit log every hour-long window, wherever it ends, holds at most twenty
      deliveries for an organization, and two deliveries of an invitation are a minute apart,
      although a delivery checks only the hour and the minute that end with it. */
  lemma DeliveriesStayWithinTheRate(members: map<(OrgId, UserId), Role>, emails: map<UserId, Email>, now: int, steps: seq<Step>,
                                    org: OrgId, t: int)
    ensures var audit := Run(Initial(members, emails, now), steps).db.audit;
            && InWindow(audit, org, t) <= 20
            && (forall i, j | 0 <= i < j < |audit| && audit[i].target == audit[j].target ::
                  audit[i].createdAt + MINUTE_MS <= audit[j].createdAt)
  {
    InitialInv(members, emails, now);
    DeliveriesInRun(Initial(members, emails, now), steps);
  }

  lemma {:induction false} DeliveriesInRun(w: World, steps: seq<Step>)
    requires Inv(w) && DeliveryRules(w.db.audit, w.now)
    ensures DeliveryRules(Run(w, steps).db.audit, Run(w, steps).now)
    decreases |steps|
  {
    hide Inv, Apply, DeliveryRules, StatementOf, Exec;
    if steps != [] {
      var step := steps[0];
      StepKeepsInv(w, step);
      StepIsItsStatement(w, step);
      NextKeepsCall(w, step);
      var s := StatementOf(w, step);
      if s.Some? {
        Untouched(w, s.value);
        if s.value.Claim? {
          ClaimKeepsRules(w.db, s.value.id, s.value.org, w.now);
          ClaimIsExecuted(w, s.value);
        }
        StatementTakesNoTime(w, step);
      } else {
        ClockAdvances(w, step);
        LaterDeliveries(w.db.audit, w.now, Apply(w, step).now);
      }
      DeliveriesInRun(Apply(w, step), steps[1..]);
    }
  }

  lemma StatementTakesNoTime(w: World, step: Step)
    requires StatementOf(w, step).Some?
    ensures Apply(w, step).now == w.now
  {
    NextKeepsCall(w, step);
  }

  lemma ClockAdvances(w: World, step: Step)
    ensures w.now <= Apply(w, step).now
  {
    NextKeepsCall(w, step);
  }

  lemma LaterDeliveries(audit: seq<Delivery>, now: int, later: int)
    requires now <= later && DeliveryRules(audit, now)
    ensures DeliveryRules(audit, later)
  {
  }
}
